/** The wellness page (`src/pages/wellness-page.tsx`). It shows one Monday
    week of practice instances, the weekly scores, and the MIT/LIT counts
    and tag list the task editor needs. It keeps a journal dictionary keyed
    by `date-practice`. Every server call is an input: its answer, or `None`
    when it threw. The reloads the page starts after a change are
    reported, not run. */
module WellnessPage {
  import opened Wrappers
  import opened Text
  import opened Seqs
  import opened CivilDate
  import opened Tasks
  import opened WellnessApi
  import WellnessTrackerGrid
  import WellnessStatusWidget

  // ---------------------------------------------------------------------------
  // MIT and LIT counts for the task editor.

  /** `t.status === 'Open' || t.status === 'Waiting'`. */
  function IsActive(): Task -> bool
  {
    (t: Task) => t.status == Open || t.status == Waiting
  }

  function ActiveMit(): Task -> bool
  {
    (t: Task) => t.isMIT
  }

  function ActiveLit(): Task -> bool
  {
    (t: Task) => !t.isMIT
  }

  datatype TaskCounts = TaskCounts(mit: nat, lit: nat)

  /** `actualMit.length` and `allLit.length + overflowMit.length`. The
      page sorts `allMit` by priority before slicing it; only the lengths of
      the slices are used, and sorting keeps the length, so the model slices
      the filtered list as it stands. */
  function CountsOf(all: seq<Task>): TaskCounts
  {
    var active := Filter(all, IsActive());
    var allMit := Filter(active, ActiveMit());
    var allLit := Filter(active, ActiveLit());
    TaskCounts(|Take(allMit, MitCap)|, |allLit| + |Drop(allMit, MitCap)|)
  }

  /** At most three tasks count as MIT; every other active task counts as
      LIT, so the two counts share out the active tasks. */
  lemma CountsOfCorrect(all: seq<Task>)
    ensures var c, active := CountsOf(all), Filter(all, IsActive());
      var m := |Filter(active, ActiveMit())|;
      c.mit == (if m < 3 then m else 3) && c.mit + c.lit == |active|
  {
    var active := Filter(all, IsActive());
    FilterSplit(active, ActiveMit(), ActiveLit());
    assert |multiset(Filter(active, ActiveMit()))| + |multiset(Filter(active, ActiveLit()))| == |multiset(active)|;
  }

  // ---------------------------------------------------------------------------
  // The tag list.

  function TaskTags(t: Task): seq<string>
  {
    t.tags.GetOr([])
  }

  /** `Array.from(tags).sort()` after every task's tags went into a `Set`:
      the tags are gathered one at a time, skipping those already there. */
  method CollectTags(all: seq<Task>) returns (tags: seq<string>)
    ensures StringsSorted(tags) && Distinct(tags)
    ensures forall x :: x in tags <==> exists t :: t in all && x in TaskTags(t)
  {
    var found: seq<string> := [];
    var i := 0;
    while i < |all|
      invariant 0 <= i <= |all|
      invariant Distinct(found)
      invariant forall x :: x in found <==> exists t :: t in all[..i] && x in TaskTags(t)
    {
      var ts := TaskTags(all[i]);
      var j := 0;
      while j < |ts|
        invariant 0 <= j <= |ts|
        invariant Distinct(found)
        invariant forall x :: x in found <==> (exists t :: t in all[..i] && x in TaskTags(t)) || x in ts[..j]
      {
        if ts[j] !in found {
          found := found + [ts[j]];
        }
        assert ts[..j + 1] == ts[..j] + [ts[j]];
        j := j + 1;
      }
      assert ts[..j] == ts;
      assert all[..i + 1] == all[..i] + [all[i]];
      i := i + 1;
    }
    assert all[..i] == all;
    tags := SortStrings(found);
    SortStringsCorrect(found);
    DistinctPermutation(found, tags);
    forall x ensures x in tags <==> x in found {
      assert x in tags <==> x in multiset(tags);
      assert x in found <==> x in multiset(found);
    }
  }

  // ---------------------------------------------------------------------------
  // The journal dictionary.

  /** `if (p.journal)`: a journal that is present and not empty. */
  predicate HasJournal(p: PracticeInstance)
  {
    p.journal.Some? && p.journal.value != ""
  }

  function JournalKey(p: PracticeInstance): string
  {
    PracticeKey(p.date, p.practice)
  }

  function JournalText(p: PracticeInstance): string
  {
    p.journal.GetOr("")
  }

  /** The dictionary the `forEach` builds: a later instance with the same
      key overwrites an earlier one. */
  function JournalOf(ps: seq<PracticeInstance>): map<string, string>
  {
    KeyedMap(ps, HasJournal, JournalKey, JournalText)
  }

  /** Instance i of the list has a journal stored under key k. */
  predicate JournalAt(ps: seq<PracticeInstance>, i: int, k: string)
  {
    StoredAt(ps, HasJournal, JournalKey, i, k)
  }

  /** A key is present exactly when some instance with that key has a
      journal. */
  lemma JournalOfKeys(ps: seq<PracticeInstance>)
    ensures forall k :: k in JournalOf(ps) <==> exists i :: JournalAt(ps, i, k)
  {
    KeyedMapKeys(ps, HasJournal, JournalKey, JournalText);
    forall k ensures k in JournalOf(ps) <==> exists i :: JournalAt(ps, i, k) {
      if exists i :: JournalAt(ps, i, k) {
        var i :| JournalAt(ps, i, k);
        assert StoredAt(ps, HasJournal, JournalKey, i, k);
      }
      if k in JournalOf(ps) {
        var i :| StoredAt(ps, HasJournal, JournalKey, i, k);
        assert JournalAt(ps, i, k);
      }
    }
  }

  /** A present key holds the journal of the last instance with that key
      and a journal. */
  lemma JournalOfLast(ps: seq<PracticeInstance>)
    ensures forall k :: k in JournalOf(ps) ==>
      exists i ::
        JournalAt(ps, i, k) && JournalOf(ps)[k] == JournalText(ps[i]) &&
        forall j :: i < j < |ps| ==> !JournalAt(ps, j, k)
  {
    KeyedMapLast(ps, HasJournal, JournalKey, JournalText);
  }

  /** The `forEach` over the fetched instances. */
  method BuildJournal(ps: seq<PracticeInstance>) returns (m: map<string, string>)
    ensures m == JournalOf(ps)
  {
    m := map[];
    var i := 0;
    while i < |ps|
      invariant 0 <= i <= |ps|
      invariant m == JournalOf(ps[..i])
    {
      assert ps[..i + 1][..i] == ps[..i];
      if HasJournal(ps[i]) {
        m := m[JournalKey(ps[i]) := JournalText(ps[i])];
      }
      i := i + 1;
    }
    assert ps[..i] == ps;
  }

  // ---------------------------------------------------------------------------
  // Scores and weeks.

  /** `scores.find(s => s.weekStart === week)?.score || 0`. */
  function ScoreFor(scores: seq<WeeklyWellnessScore>, week: string): (r: int)
    ensures (forall s :: s in scores ==> s.weekStart != week) ==> r == 0
    ensures r != 0 ==>
      exists i ::
        0 <= i < |scores| && scores[i].weekStart == week && scores[i].score == r &&
        forall j :: 0 <= j < i ==> scores[j].weekStart != week
    ensures forall i ::
      0 <= i < |scores| && scores[i].weekStart == week && (forall j :: 0 <= j < i ==> scores[j].weekStart != week) ==>
        r == scores[i].score
  {
    var k := IndexWhere(scores, (s: WeeklyWellnessScore) => s.weekStart == week);
    if k < 0 then 0 else scores[k].score
  }

  /** The weeks the page can load: the week start reads as a day, the week
      before it and its last day exist with four-digit years. */
  predicate Loadable(week: string)
  {
    var d := ParseIsoDay(week);
    d.Some? && DayNumber(d.value) >= 7 && d.value.year <= 9998
  }

  /** The practice request `getPracticeInstances(currentWeek, weekEnd)`. */
  datatype QueryRange = QueryRange(start: string, end: string)

  function RequestRange(week: string): (r: QueryRange)
    requires Loadable(week)
    ensures r.start == week
    ensures ParseIsoDay(r.end).Some? &&
      DayNumber(ParseIsoDay(r.end).value) == DayNumber(ParseIsoDay(week).value) + 6
  {
    var d := ParseIsoDay(week).value;
    var e := AddDays(d, 6);
    WellnessStatusWidget.WeekEndYear(d, e);
    ParseIsoDayRoundTrip(e);
    QueryRange(week, IsoDay(e))
  }

  /** The week start seven days before, whose score is last week's. */
  function PreviousWeek(week: string): (r: string)
    requires Loadable(week)
    ensures ParseIsoDay(r).Some? && DayNumber(ParseIsoDay(r).value) + 7 == DayNumber(ParseIsoDay(week).value)
  {
    var p := AddDays(ParseIsoDay(week).value, -7);
    DayNumberOrder(p, ParseIsoDay(week).value);
    ParseIsoDayRoundTrip(p);
    IsoDay(p)
  }

  /** A week the page can move from: a week that does not read as a day
      (it navigates to "NaN-NaN-NaN"), or one from year 3 on, so that the
      week seven days back and its Monday stay in a year the calendar holds
      (from year 1) and the calendar's own lemmas, which need a year
      before, apply. */
  predicate Navigable(week: string)
  {
    ParseIsoDay(week).None? || ParseIsoDay(week).value.year >= 3
  }

  /** What `getWeekStart` prints for an invalid date. */
  const InvalidWeek := "NaN-NaN-NaN"

  /** `navigateWeek`: seven days on or back from the week's noon, then back
      to that week's Monday. */
  function NavigatedWeek(week: string, next: bool): string
    requires Navigable(week)
  {
    var d := ParseIsoDay(week);
    if d.None? then InvalidWeek else NavigatedDate(d.value, next)
  }

  /** The week start seven days on or back from a day. */
  function NavigatedDate(d: Date, next: bool): string
    requires Valid(d) && d.year >= 3
  {
    LaterYears(d);
    var moved := AddDays(d, if next then 7 else -7);
    NavigatedYear(d, moved);
    GetWeekStart(moved)
  }

  /** A date at most a week before d lies in d's year or the one before. */
  lemma NavigatedYear(d: Date, moved: Date)
    requires Valid(d) && d.year >= 3 && Valid(moved) && DayNumber(moved) >= DayNumber(d) - 7
    ensures moved.year >= d.year - 1
  {
    var first := Date(d.year, 1, 1);
    DayNumberOrder(first, d);
    assert DaysBeforeYear(d.year) == DaysBeforeYear(d.year - 1) + DaysInYear(d.year - 1);
    DayNumberOrder(moved, Date(d.year - 1, 1, 1));
  }

  /** A date seven days from a Monday is a Monday, its own week start. */
  lemma SameMonday(m: Date, n: Date)
    requires Valid(m) && Valid(n) && Weekday(m) == 1 && 1000 <= n.year <= 9999
    requires DayNumber(n) == DayNumber(m) + 7 || DayNumber(n) + 7 == DayNumber(m)
    ensures Weekday(n) == 1 && GetWeekStart(n) == IsoDay(n)
  {
    WeekdayShift(m, n, DayNumber(n) - DayNumber(m));
    MondayOfCorrect(n);
    GetWeekStartIsMonday(n);
    YmdIsIsoDay(n);
  }

  /** One step from a Monday's week start lands on the week start of the
      Monday seven days on or back. */
  lemma NavigatedFrom(m: Date, next: bool, n: Date)
    requires Valid(m) && Weekday(m) == 1 && 3 <= m.year <= 9999
    requires Valid(n) && 1000 <= n.year <= 9999 && DayNumber(n) == DayNumber(m) + (if next then 7 else -7)
    ensures Navigable(IsoDay(m)) && NavigatedWeek(IsoDay(m), next) == IsoDay(n)
  {
    ParseIsoDayRoundTrip(m);
    NavigatedParsed(IsoDay(m), m, next);
    NavigatedDateFrom(m, next, n);
  }

  lemma NavigatedParsed(week: string, d: Date, next: bool)
    requires ParseIsoDay(week) == Some(d) && d.year >= 3
    ensures Navigable(week) && NavigatedWeek(week, next) == NavigatedDate(d, next)
  {
  }

  lemma NavigatedDateFrom(m: Date, next: bool, n: Date)
    requires Valid(m) && Weekday(m) == 1 && 3 <= m.year <= 9999
    requires Valid(n) && 1000 <= n.year <= 9999 && DayNumber(n) == DayNumber(m) + (if next then 7 else -7)
    ensures NavigatedDate(m, next) == IsoDay(n)
  {
    LaterYears(m);
    var moved := AddDays(m, if next then 7 else -7);
    DayNumberOrder(moved, n);
    SameMonday(m, n);
  }

  /** From a Monday of a four-digit year the page moves on to the Monday a
      week later, and moving back from there returns to the start. */
  lemma NavigateOnAndBack(m: Date, later: Date)
    requires Valid(m) && Weekday(m) == 1 && 1001 <= m.year <= 9999
    requires Valid(later) && later.year <= 9999 && DayNumber(later) == DayNumber(m) + 7
    ensures Weekday(later) == 1
    ensures Navigable(IsoDay(m)) && NavigatedWeek(IsoDay(m), true) == IsoDay(later)
    ensures Navigable(IsoDay(later)) && NavigatedWeek(IsoDay(later), false) == IsoDay(m)
  {
    DayNumberOrder(m, later);
    SameMonday(m, later);
    NavigatedFrom(m, true, later);
    NavigatedFrom(later, false, m);
  }

  /** From a Monday of a four-digit year the page moves back to the Monday a
      week earlier, and moving on from there returns to the start. */
  lemma NavigateBackAndOn(m: Date, earlier: Date)
    requires Valid(m) && Weekday(m) == 1 && 3 <= m.year <= 9999
    requires Valid(earlier) && 1000 <= earlier.year <= 9999 && DayNumber(earlier) + 7 == DayNumber(m)
    ensures Weekday(earlier) == 1
    ensures Navigable(IsoDay(m)) && NavigatedWeek(IsoDay(m), false) == IsoDay(earlier)
    ensures Navigable(IsoDay(earlier)) && NavigatedWeek(IsoDay(earlier), true) == IsoDay(m)
  {
    DayNumberOrder(earlier, m);
    SameMonday(m, earlier);
    NavigatedFrom(m, false, earlier);
    NavigatedFrom(earlier, true, m);
  }

  // ---------------------------------------------------------------------------
  // Practice updates.

  /** A practice of one day. */
  datatype PracticeDay = PracticeDay(date: string, practice: WellnessPractice)

  const AlreadyExists := "already exists"

  /** The answer to one server call: the instance it returned, or a thrown
      error with its message (`None` when the thrown value was not an
      `Error`). */
  datatype Reply = Returned(instance: PracticeInstance) | Threw(message: Option<string>)

  /** `error instanceof Error && error.message.includes('already exists')`. */
  predicate IsDuplicate(message: Option<string>)
  {
    message.Some? && Contains(message.value, AlreadyExists)
  }

  /** The error the `catch` of a new practice sees: the create's, or that of
      the update that follows the create of a completed practice. */
  function CaughtError(completed: bool, created: Reply, updated: Reply): (e: Option<Option<string>>)
    ensures e.None? <==> created.Returned? && (completed ==> updated.Returned?)
    ensures created.Threw? ==> e == Some(created.message)
  {
    if created.Threw? then Some(created.message)
    else if completed && updated.Threw? then Some(updated.message)
    else None
  }

  /** `wasJustCompleted`: an existing instance goes from not done to done, or
      a new one is created already done (even when its update then fails
      and the duplicate path takes over). */
  function JustCompleted(existing: Option<PracticeInstance>, completed: bool, created: Reply): (b: bool)
    ensures b ==> completed
    ensures existing.Some? ==> (b <==> !existing.value.completed && completed)
    ensures existing.None? ==> (b <==> completed && created.Returned?)
  {
    if existing.Some? then !existing.value.completed && completed else completed && created.Returned?
  }

  /** `prev.map(p => p.id === updated.id ? updated : p)`. */
  function ReplaceById(ps: seq<PracticeInstance>, updated: PracticeInstance): (r: seq<PracticeInstance>)
    ensures |r| == |ps|
    ensures forall i :: 0 <= i < |ps| ==> r[i] == if ps[i].id == updated.id then updated else ps[i]
  {
    seq(|ps|, i requires 0 <= i < |ps| => if ps[i].id == updated.id then updated else ps[i])
  }

  /** The week's instances once the calls of `handlePracticeUpdate` have
      settled, and whether it reloaded the page. */
  datatype Stored = Stored(practices: seq<PracticeInstance>, reloaded: bool)

  /** What the create and update calls leave, or `None` when one of them
      threw out of `handlePracticeUpdate`. `updated` answers the first
      update call and `retried` the update the `catch` makes after a
      duplicate create. An existing instance is replaced; a new one is
      appended, and only the duplicate path reloads. */
  function StoreUpdate(ps: seq<PracticeInstance>, date: string, p: WellnessPractice, completed: bool,
                       created: Reply, updated: Reply, retried: Reply): (r: Option<Stored>)
    ensures WellnessTrackerGrid.FindInstance(ps, date, p).Some? ==>
      (r.Some? <==> updated.Returned?) &&
      (r.Some? ==> r.value == Stored(ReplaceById(ps, updated.instance), false))
    ensures WellnessTrackerGrid.FindInstance(ps, date, p).None? && r.Some? ==>
      |r.value.practices| == |ps| + 1 && r.value.practices[..|ps|] == ps
    ensures WellnessTrackerGrid.FindInstance(ps, date, p).None? && CaughtError(completed, created, updated).None? ==>
      r == Some(Stored(ps + [if completed then updated.instance else created.instance], false))
    ensures WellnessTrackerGrid.FindInstance(ps, date, p).None? && CaughtError(completed, created, updated).Some? ==>
      (r.Some? <==> IsDuplicate(CaughtError(completed, created, updated).value) && retried.Returned?) &&
      (r.Some? ==> r.value == Stored(ps + [retried.instance], true))
  {
    if WellnessTrackerGrid.FindInstance(ps, date, p).Some? then
      if updated.Returned? then Some(Stored(ReplaceById(ps, updated.instance), false)) else None
    else
      var caught := CaughtError(completed, created, updated);
      if caught.None? then Some(Stored(ps + [if completed then updated.instance else created.instance], false))
      else if IsDuplicate(caught.value) && retried.Returned? then Some(Stored(ps + [retried.instance], true))
      else None
  }

  /** An instance the server returns for this day. */
  predicate ForDay(r: Reply, date: string, p: WellnessPractice)
  {
    r.Returned? && r.instance.date == date && r.instance.practice == p
  }

  /** Once the calls have settled, and the server answered with instances
      of the day asked for, the week holds an instance of that day. */
  lemma StoreUpdateHasDay(ps: seq<PracticeInstance>, date: string, p: WellnessPractice, completed: bool,
                          created: Reply, updated: Reply, retried: Reply)
    requires (created.Returned? ==> ForDay(created, date, p)) && (updated.Returned? ==> ForDay(updated, date, p))
    requires retried.Returned? ==> ForDay(retried, date, p)
    ensures var r := StoreUpdate(ps, date, p, completed, created, updated, retried);
      r.Some? ==> WellnessTrackerGrid.FindInstance(r.value.practices, date, p).Some?
  {
    var r := StoreUpdate(ps, date, p, completed, created, updated, retried);
    if r.Some? {
      var qs := r.value.practices;
      var found := WellnessTrackerGrid.FindInstance(ps, date, p);
      if found.Some? {
        var i :| 0 <= i < |ps| && ps[i] == found.value;
        assert qs[i] == ps[i] || qs[i] == updated.instance;
        assert qs[i] in qs;
      } else {
        assert qs[|ps|] in qs;
      }
    }
  }

  /** How `handlePracticeUpdate` ended: rejected by a call that threw, or
      settled, possibly having reloaded the page. */
  datatype UpdateOutcome = Rejected | Settled(reloaded: bool)

  /** What a task save sends: an update of the selected task or a create. */
  datatype TaskSave = UpdateTask(taskId: string, data: TaskPatch) | CreateTask(data: TaskPatch)

  /** How a new wellness task is tied to its practice day. */
  datatype LinkAction = NoLink | UpdateLink(day: PracticeDay, taskId: string) | CreateLink(day: PracticeDay, taskId: string)

  const WellnessTag := "Wellness"

  /** The patch a new task is created with: the `Wellness` tag appended
      and, for a practice day, the practice name in front of the title (an
      absent title prints as "undefined"). */
  function NewTaskPatch(data: TaskPatch, pending: Option<PracticeDay>): (r: TaskPatch)
    ensures r.tags == Some(data.tags.GetOr([]) + [WellnessTag])
    ensures pending.None? ==> r.title == data.title
    ensures pending.Some? ==> r.title == Some(PracticeName(pending.value.practice) + ": " + data.title.GetOr("undefined"))
    ensures r.(title := data.title, tags := data.tags) == data
  {
    var tagged := data.(tags := Some(data.tags.GetOr([]) + [WellnessTag]));
    if pending.Some? then
      tagged.(title := Some(PracticeName(pending.value.practice) + ": " + data.title.GetOr("undefined")))
    else tagged
  }

  /** The save sent for the task dialog. */
  function TaskSaveFor(selected: Option<Task>, pending: Option<PracticeDay>, data: TaskPatch): (s: TaskSave)
    ensures selected.Some? <==> s.UpdateTask?
    ensures selected.Some? ==> s == UpdateTask(selected.value.taskId, data)
  {
    if selected.Some? then UpdateTask(selected.value.taskId, data) else CreateTask(NewTaskPatch(data, pending))
  }

  /** Only a task created for a practice day is linked to it: through an
      update when the week already has that day's instance, else a create. */
  function LinkActionFor(selected: Option<Task>, pending: Option<PracticeDay>, ps: seq<PracticeInstance>,
                         taskId: string): (l: LinkAction)
    ensures l != NoLink <==> selected.None? && pending.Some?
    ensures l != NoLink ==> l.day == pending.value && l.taskId == taskId
    ensures l.UpdateLink? ==> exists p :: p in ps && p.date == l.day.date && p.practice == l.day.practice
    ensures l.CreateLink? ==> forall p :: p in ps ==> !(p.date == l.day.date && p.practice == l.day.practice)
  {
    if selected.Some? || pending.None? then NoLink
    else
      var day := pending.value;
      if WellnessTrackerGrid.FindInstance(ps, day.date, day.practice).Some? then UpdateLink(day, taskId)
      else CreateLink(day, taskId)
  }

  /** The journal text sent by `handleJournalSave`, if any: only when there
      is something new or an entry to clear. */
  function JournalRequest(entries: map<string, string>, key: string, content: string): (r: Option<string>)
    ensures r.Some? <==> !IsBlank(content) || (key in entries && entries[key] != "")
    ensures r.Some? && !IsBlank(content) ==> r.value == Trim(content)
    ensures r.Some? && IsBlank(content) ==> r.value == ""
  {
    TrimEmptyIffBlank(content);
    var had := key in entries && entries[key] != "";
    var hasNew := Trim(content) != "";
    if hasNew || had then Some(if hasNew then Trim(content) else "") else None
  }

  class Page {
    var currentWeek: string
    var practices: seq<PracticeInstance>
    var weeklyScores: seq<WeeklyWellnessScore>
    var viewedWeekScore: int
    var lastWeekScore: int
    var isLoading: bool
    var isTaskDialogOpen: bool
    var selectedTask: Option<Task>
    var pendingWellnessLink: Option<PracticeDay>
    var allTags: seq<string>
    var mitTaskCount: nat
    var litTaskCount: nat
    var showJournalFor: Option<PracticeDay>
    var journalContent: string
    var journalEntries: map<string, string>

    /** The mount effect sets the week to today's week start. */
    constructor (today: Date)
      requires Valid(today) && today.year >= 2
      ensures currentWeek == GetWeekStart(today) && practices == [] && weeklyScores == []
      ensures viewedWeekScore == 0 && lastWeekScore == 0 && isLoading
      ensures !isTaskDialogOpen && selectedTask == None && pendingWellnessLink == None
      ensures allTags == [] && mitTaskCount == 0 && litTaskCount == 0
      ensures showJournalFor == None && journalContent == "" && journalEntries == map[]
    {
      currentWeek := GetWeekStart(today);
      practices := [];
      weeklyScores := [];
      viewedWeekScore := 0;
      lastWeekScore := 0;
      isLoading := true;
      isTaskDialogOpen := false;
      selectedTask := None;
      pendingWellnessLink := None;
      allTags := [];
      mitTaskCount := 0;
      litTaskCount := 0;
      showJournalFor := None;
      journalContent := "";
      journalEntries := map[];
    }

    /** `loadWellnessData` up to its first requests. Without a week
        nothing happens. A week that cannot be read fails like a thrown
        call: no request, and the `finally` clears the loading flag.
        Otherwise it returns the practice request and loading is on. */
    method LoadWellnessData() returns (request: Option<QueryRange>)
      modifies this`isLoading
      ensures currentWeek == "" ==> request == None && isLoading == old(isLoading)
      ensures currentWeek != "" && !Loadable(currentWeek) ==> request == None && !isLoading
      ensures currentWeek != "" && Loadable(currentWeek) ==> request == Some(RequestRange(currentWeek)) && isLoading
    {
      var w := currentWeek;
      if w == "" {
        request := None;
      } else if !Loadable(w) {
        request := None;
        isLoading := false;
      } else {
        request := Some(RequestRange(w));
        isLoading := true;
      }
    }

    /** The practice and score requests settled (`None`: one threw). On
        success the week's practices, scores and journal dictionary are
        stored with this and last week's scores, and the task request is
        made; on failure nothing is stored and loading ends. */
    method WeekArrived(week: Option<(seq<PracticeInstance>, seq<WeeklyWellnessScore>)>)
      returns (tasksRequested: bool)
      requires Loadable(currentWeek)
      modifies this`practices, this`weeklyScores, this`journalEntries, this`viewedWeekScore
      modifies this`lastWeekScore, this`isLoading
      ensures tasksRequested <==> week.Some?
      ensures week.Some? ==>
        practices == week.value.0 && weeklyScores == week.value.1 &&
        journalEntries == JournalOf(week.value.0) &&
        viewedWeekScore == ScoreFor(week.value.1, currentWeek) &&
        lastWeekScore == ScoreFor(week.value.1, PreviousWeek(currentWeek)) &&
        isLoading == old(isLoading)
      ensures week.None? ==>
        practices == old(practices) && weeklyScores == old(weeklyScores) &&
        journalEntries == old(journalEntries) && viewedWeekScore == old(viewedWeekScore) &&
        lastWeekScore == old(lastWeekScore) && !isLoading
    {
      if week.None? {
        isLoading := false;
        tasksRequested := false;
      } else {
        StoreWeek(currentWeek, week.value.0, week.value.1);
        tasksRequested := true;
      }
    }

    /** The fields `WeekArrived` sets from a settled week. */
    method StoreWeek(w: string, ps: seq<PracticeInstance>, scores: seq<WeeklyWellnessScore>)
      requires Loadable(w)
      modifies this`practices, this`weeklyScores, this`journalEntries, this`viewedWeekScore
      modifies this`lastWeekScore
      ensures practices == ps && weeklyScores == scores && journalEntries == JournalOf(ps)
      ensures viewedWeekScore == ScoreFor(scores, w) && lastWeekScore == ScoreFor(scores, PreviousWeek(w))
    {
      var journal := BuildJournal(ps);
      var viewed := ScoreFor(scores, w);
      var last := ScoreFor(scores, PreviousWeek(w));
      practices := ps;
      weeklyScores := scores;
      journalEntries := journal;
      viewedWeekScore := viewed;
      lastWeekScore := last;
    }

    /** The task request settled (`None`: it threw): on success the sorted
        distinct tags and the MIT and LIT counts are stored; either way
        loading ends. */
    method TasksArrived(tasks: Option<seq<Task>>)
      modifies this`allTags, this`mitTaskCount, this`litTaskCount, this`isLoading
      ensures tasks.Some? ==>
        StringsSorted(allTags) && Distinct(allTags) &&
        (forall x :: x in allTags <==> exists t :: t in tasks.value && x in TaskTags(t)) &&
        mitTaskCount == CountsOf(tasks.value).mit && litTaskCount == CountsOf(tasks.value).lit
      ensures tasks.None? ==>
        allTags == old(allTags) && mitTaskCount == old(mitTaskCount) && litTaskCount == old(litTaskCount)
      ensures !isLoading
    {
      if tasks.Some? {
        var tags := CollectTags(tasks.value);
        var counts := CountsOf(tasks.value);
        allTags := tags;
        mitTaskCount := counts.mit;
        litTaskCount := counts.lit;
      }
      isLoading := false;
    }

    /** `handlePracticeUpdate` with the server's answers to the create (if
        one is made), the update, the update after a duplicate create, and
        the final score request (`None`: it threw). The journal prompt
        opens only for a practice that was just completed. The reload of
        the duplicate path is reported, not run. */
    method HandlePracticeUpdate(date: string, p: WellnessPractice, completed: bool,
                                created: Reply, updated: Reply, retried: Reply,
                                scores: Option<seq<WeeklyWellnessScore>>)
      returns (outcome: UpdateOutcome)
      modifies this`practices, this`showJournalFor, this`journalContent
      modifies this`weeklyScores, this`viewedWeekScore, this`lastWeekScore
      ensures var stored := StoreUpdate(old(practices), date, p, completed, created, updated, retried);
        (stored.None? ==> outcome == Rejected && practices == old(practices)) &&
        (stored.Some? ==> practices == stored.value.practices)
      ensures var just := StoreUpdate(old(practices), date, p, completed, created, updated, retried).Some? &&
          JustCompleted(WellnessTrackerGrid.FindInstance(old(practices), date, p), completed, created);
        var key := PracticeKey(date, p);
        (just ==>
          showJournalFor == Some(PracticeDay(date, p)) &&
          journalContent == (if key in journalEntries then journalEntries[key] else "")) &&
        (!just ==> showJournalFor == old(showJournalFor) && journalContent == old(journalContent))
      ensures var stored := StoreUpdate(old(practices), date, p, completed, created, updated, retried);
        (stored.None? || scores.None? ==>
          outcome == Rejected && weeklyScores == old(weeklyScores) &&
          viewedWeekScore == old(viewedWeekScore) && lastWeekScore == old(lastWeekScore)) &&
        (stored.Some? && scores.Some? ==>
          outcome == Settled(stored.value.reloaded) && weeklyScores == scores.value &&
          viewedWeekScore == ScoreFor(scores.value, currentWeek) &&
          lastWeekScore == (if |scores.value| > 1 then scores.value[1].score else 0))
    {
      var existing := WellnessTrackerGrid.FindInstance(practices, date, p);
      var stored := StoreUpdate(practices, date, p, completed, created, updated, retried);
      var just := stored.Some? && JustCompleted(existing, completed, created);
      if stored.None? {
        outcome := Rejected;
      } else {
        practices := stored.value.practices;
        if just {
          HandleJournalEdit(date, p);
        }
        if scores.None? {
          outcome := Rejected;
        } else {
          StoreScores(scores.value);
          outcome := Settled(stored.value.reloaded);
        }
      }
    }

    /** The refreshed scores: the list, the viewed week's score and the
        second entry as last week's. */
    method StoreScores(scores: seq<WeeklyWellnessScore>)
      modifies this`weeklyScores, this`viewedWeekScore, this`lastWeekScore
      ensures weeklyScores == scores && viewedWeekScore == ScoreFor(scores, currentWeek)
      ensures lastWeekScore == if |scores| > 1 then scores[1].score else 0
    {
      var viewed := ScoreFor(scores, currentWeek);
      weeklyScores := scores;
      viewedWeekScore := viewed;
      lastWeekScore := if |scores| > 1 then scores[1].score else 0;
    }

    /** `handleCreateTask`: open the dialog for a new task tied to a day. */
    method HandleCreateTask(date: string, p: WellnessPractice)
      modifies this
      ensures pendingWellnessLink == Some(PracticeDay(date, p)) && selectedTask == None && isTaskDialogOpen
      ensures practices == old(practices) && journalEntries == old(journalEntries) && currentWeek == old(currentWeek)
    {
      pendingWellnessLink := Some(PracticeDay(date, p));
      selectedTask := None;
      isTaskDialogOpen := true;
    }

    /** `handleJournalEdit`: open a day's journal with its stored text. */
    method HandleJournalEdit(date: string, p: WellnessPractice)
      modifies this`showJournalFor, this`journalContent
      ensures showJournalFor == Some(PracticeDay(date, p))
      ensures journalContent == if PracticeKey(date, p) in journalEntries then journalEntries[PracticeKey(date, p)] else ""
    {
      showJournalFor := Some(PracticeDay(date, p));
      var key := PracticeKey(date, p);
      journalContent := if key in journalEntries then journalEntries[key] else "";
    }

    /** `handleJournalSave`. `apiOk` says whether the journal update, when
        one is sent, succeeded. It returns the journal text sent, if any,
        and whether the page reloads; the journal closes either way. */
    method HandleJournalSave(apiOk: bool) returns (sent: Option<string>, reload: bool)
      modifies this
      ensures old(showJournalFor).None? ==>
        sent == None && !reload && journalEntries == old(journalEntries) &&
        showJournalFor == None && journalContent == old(journalContent)
      ensures old(showJournalFor).Some? ==>
        var day := old(showJournalFor).value;
        var key := PracticeKey(day.date, day.practice);
        sent == JournalRequest(old(journalEntries), key, old(journalContent)) &&
        (reload <==> sent.None? || apiOk) &&
        journalEntries == (if reload then WellnessStatusWidget.SaveJournal(old(journalEntries), key, old(journalContent))
                           else old(journalEntries)) &&
        showJournalFor == None && journalContent == ""
      ensures practices == old(practices) && currentWeek == old(currentWeek)
    {
      if showJournalFor.None? {
        sent, reload := None, false;
      } else {
        var day := showJournalFor.value;
        var key := PracticeKey(day.date, day.practice);
        var saved := WellnessStatusWidget.SaveJournal(journalEntries, key, journalContent);
        sent := JournalRequest(journalEntries, key, journalContent);
        reload := sent.None? || apiOk;
        if reload {
          journalEntries := saved;
        }
        journalContent := "";
      }
      showJournalFor := None;
    }

    /** `navigateWeek`. */
    method NavigateWeek(next: bool)
      requires Navigable(currentWeek)
      modifies this
      ensures currentWeek == NavigatedWeek(old(currentWeek), next)
      ensures practices == old(practices) && journalEntries == old(journalEntries)
    {
      currentWeek := NavigatedWeek(currentWeek, next);
    }

    /** `handleChartWeekClick`. */
    method HandleChartWeekClick(weekStart: string)
      modifies this
      ensures currentWeek == weekStart && practices == old(practices) && journalEntries == old(journalEntries)
    {
      currentWeek := weekStart;
    }

    /** `handleWellnessTaskSave`. `createdId` is the id of the task the
        create returns and `ok` says whether every awaited call succeeded
        (a duplicate link create falls back to an update). It returns the
        task save and the link it makes; on success the dialog closes and
        forgets its task and practice day, on failure nothing changes. */
    method HandleWellnessTaskSave(data: TaskPatch, createdId: string, ok: bool)
      returns (save: TaskSave, link: LinkAction, reload: Option<QueryRange>)
      modifies this`isTaskDialogOpen, this`selectedTask, this`pendingWellnessLink, this`isLoading
      ensures save == TaskSaveFor(old(selectedTask), old(pendingWellnessLink), data)
      ensures link == LinkActionFor(old(selectedTask), old(pendingWellnessLink), old(practices), createdId)
      ensures ok ==> !isTaskDialogOpen && selectedTask == None && pendingWellnessLink == None
      ensures ok && currentWeek != "" && Loadable(currentWeek) ==> reload == Some(RequestRange(currentWeek)) && isLoading
      ensures ok && currentWeek != "" && !Loadable(currentWeek) ==> reload == None && !isLoading
      ensures !ok || currentWeek == "" ==> reload == None && isLoading == old(isLoading)
      ensures !ok ==>
        isTaskDialogOpen == old(isTaskDialogOpen) && selectedTask == old(selectedTask) &&
        pendingWellnessLink == old(pendingWellnessLink)
      ensures practices == old(practices) && journalEntries == old(journalEntries) && currentWeek == old(currentWeek)
    {
      save := TaskSaveFor(selectedTask, pendingWellnessLink, data);
      link := LinkActionFor(selectedTask, pendingWellnessLink, practices, createdId);
      reload := None;
      if ok {
        isTaskDialogOpen := false;
        selectedTask := None;
        pendingWellnessLink := None;
        reload := LoadWellnessData();
      }
    }

    /** `handleOpenTask` with the answer to its task request (`None`: it
        threw): a task with that id opens in the dialog, with no practice
        day pending; otherwise nothing changes. */
    method HandleOpenTask(taskId: string, tasks: Option<seq<Task>>)
      modifies this
      ensures var found := if tasks.Some? then FindTask(tasks.value, taskId) else None;
        (found.Some? ==> selectedTask == found && pendingWellnessLink == None && isTaskDialogOpen) &&
        (found.None? ==>
          selectedTask == old(selectedTask) && pendingWellnessLink == old(pendingWellnessLink) &&
          isTaskDialogOpen == old(isTaskDialogOpen))
      ensures practices == old(practices) && journalEntries == old(journalEntries) && currentWeek == old(currentWeek)
    {
      var found := if tasks.Some? then FindTask(tasks.value, taskId) else None;
      if found.Some? {
        selectedTask := found;
        pendingWellnessLink := None;
        isTaskDialogOpen := true;
      }
    }
  }

  /** `tasks.find(t => t.TaskId === taskId)`: the first task with the id. */
  function FindTask(ts: seq<Task>, taskId: string): (r: Option<Task>)
    ensures r.Some? ==> r.value in ts && r.value.taskId == taskId
    ensures r.Some? ==>
      exists k :: 0 <= k < |ts| && ts[k] == r.value && forall i :: 0 <= i < k ==> ts[i].taskId != taskId
    ensures r.None? ==> forall t :: t in ts ==> t.taskId != taskId
  {
    var k := IndexWhere(ts, (t: Task) => t.taskId == taskId);
    if k < 0 then None else Some(ts[k])
  }

  /** `hasJournalEntry`. */
  predicate HasJournalEntry(entries: map<string, string>, date: string, p: WellnessPractice)
  {
    PracticeKey(date, p) in entries && entries[PracticeKey(date, p)] != ""
  }

  /** After a load, a day's practice shows a journal exactly when one of
      the week's instances for it has a journal. */
  lemma LoadedJournalShown(ps: seq<PracticeInstance>, date: string, p: WellnessPractice)
    ensures HasJournalEntry(JournalOf(ps), date, p) <==> exists i :: JournalAt(ps, i, PracticeKey(date, p))
  {
    JournalOfKeys(ps);
    JournalOfLast(ps);
    var k := PracticeKey(date, p);
    if k in JournalOf(ps) {
      var i :|
        JournalAt(ps, i, k) && JournalOf(ps)[k] == JournalText(ps[i]) &&
        forall j :: i < j < |ps| ==> !JournalAt(ps, j, k);
      assert HasJournal(ps[i]);
    }
  }
}
