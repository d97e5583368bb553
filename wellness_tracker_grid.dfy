/** The weekly wellness grid (`src/components/wellness/WellnessTrackerGrid.tsx`).
    It shows one row per practice and one column per day of the week, with
    each practice's weekly target and whether it is at risk. A cell's status
    is taken from the practice instance of that day, unless an optimistic
    value is pending for that cell. */
module WellnessTrackerGrid {
  import opened Wrappers
  import opened Seqs
  import opened CivilDate
  import opened Tasks

  /** `PRACTICE_TARGETS`: completions a week calls for. */
  function PracticeTarget(p: WellnessPractice): (n: nat)
    ensures n == 7 <==> p in {Gratitude, Meditation, Exercise}
    ensures n == 2 <==> p in {Kindness, SocialOutreach, NoveltyChallenge}
    ensures n == 1 <==> p == SavoringReflection
  {
    match p
    case Gratitude => 7
    case Meditation => 7
    case Kindness => 2
    case SocialOutreach => 2
    case NoveltyChallenge => 2
    case SavoringReflection => 1
    case Exercise => 7
  }

  /** The grid's row order: `PRACTICES`, alphabetical by name. */
  const Rows: seq<WellnessPractice> :=
    [Exercise, Gratitude, Kindness, Meditation, NoveltyChallenge, SavoringReflection, SocialOutreach]

  /** Every practice has exactly one row. */
  lemma RowsArePractices()
    ensures |Rows| == 7 && forall p :: p in Rows
    ensures forall i, j :: 0 <= i < j < |Rows| ==> Rows[i] != Rows[j]
  {
    forall p ensures p in Rows {
      match p
      case Exercise => assert Rows[0] == p;
      case Gratitude => assert Rows[1] == p;
      case Kindness => assert Rows[2] == p;
      case Meditation => assert Rows[3] == p;
      case NoveltyChallenge => assert Rows[4] == p;
      case SavoringReflection => assert Rows[5] == p;
      case SocialOutreach => assert Rows[6] == p;
    }
  }

  /** The week's completed instances of a practice. */
  function CompletedCount(instances: seq<PracticeInstance>, p: WellnessPractice): nat
  {
    Count(instances, (i: PracticeInstance) => i.practice == p && i.completed)
  }

  const DayMs := 86400000

  /** `Math.min(Math.max(0, floor(elapsed / day)) + 1, 7)`, where elapsed is
      the time since the week start's local midnight. */
  function DaysPassedInWeek(elapsedMs: int): (d: nat)
    ensures 1 <= d <= 7
    ensures elapsedMs < DayMs ==> d == 1
    ensures elapsedMs >= 6 * DayMs ==> d == 7
    ensures 0 <= elapsedMs < 7 * DayMs ==> d * DayMs > elapsedMs >= (d - 1) * DayMs
  {
    var whole := elapsedMs / DayMs;
    var passed := (if whole < 0 then 0 else whole) + 1;
    if passed < 7 then passed else 7
  }

  datatype PracticeStatus = Complete | AtRisk

  /** `getPracticeStatus`. */
  function StatusOf(instances: seq<PracticeInstance>, p: WellnessPractice, elapsedMs: int): PracticeStatus
  {
    var target := PracticeTarget(p);
    var completed := CompletedCount(instances, p);
    if completed >= target then Complete
    else
      var days := DaysPassedInWeek(elapsedMs);
      if target == 7 then (if completed < days - 2 then AtRisk else Complete)
      else if target == 2 then (if days >= 5 && completed == 0 then AtRisk else Complete)
      else if target == 1 then (if days >= 6 && completed == 0 then AtRisk else Complete)
      else Complete
  }

  /** When each practice is at risk: a daily one when it trails the days
      passed by more than two, a twice-weekly one with nothing done from the
      fifth day, the weekly one with nothing done from the sixth; a met
      target is never at risk. */
  lemma StatusOfCorrect(instances: seq<PracticeInstance>, p: WellnessPractice, elapsedMs: int)
    ensures var c, days := CompletedCount(instances, p), DaysPassedInWeek(elapsedMs);
      (c >= PracticeTarget(p) ==> StatusOf(instances, p, elapsedMs) == Complete) &&
      (PracticeTarget(p) == 7 ==> (StatusOf(instances, p, elapsedMs) == AtRisk <==> c < days - 2)) &&
      (PracticeTarget(p) == 2 ==> (StatusOf(instances, p, elapsedMs) == AtRisk <==> days >= 5 && c == 0)) &&
      (PracticeTarget(p) == 1 ==> (StatusOf(instances, p, elapsedMs) == AtRisk <==> days >= 6 && c == 0))
  {
  }

  /** On the first two days no practice is at risk. */
  lemma NoRiskEarly(instances: seq<PracticeInstance>, p: WellnessPractice, elapsedMs: int)
    requires elapsedMs < 2 * DayMs
    ensures StatusOf(instances, p, elapsedMs) == Complete
  {
    var days := DaysPassedInWeek(elapsedMs);
    assert days <= 2;
  }

  /** `getPracticeCompletion`: done this week against the target. */
  datatype Completion = Completion(isComplete: bool, completed: nat, target: nat)

  function CompletionOf(instances: seq<PracticeInstance>, p: WellnessPractice): (c: Completion)
    ensures c.isComplete <==> c.completed >= c.target
    ensures c.target == PracticeTarget(p) && c.completed == CompletedCount(instances, p)
  {
    var target := PracticeTarget(p);
    var completed := CompletedCount(instances, p);
    Completion(completed >= target, completed, target)
  }

  /** A complete practice also shows the complete status indicator. */
  lemma CompleteAgrees(instances: seq<PracticeInstance>, p: WellnessPractice, elapsedMs: int)
    ensures CompletionOf(instances, p).isComplete ==> StatusOf(instances, p, elapsedMs) == Complete
  {
  }

  // ---------------------------------------------------------------------------
  // Cells.

  /** `linkedTaskId` is truthy: present and not empty. */
  predicate IsLinked(i: PracticeInstance)
  {
    i.linkedTaskId.Some? && i.linkedTaskId.value != ""
  }

  datatype CellStatus = CompletedLinked | CompletedCell | LinkedCell | Incomplete | EmptyCell

  /** `getCellStatus`: a pending optimistic value decides; otherwise the
      instance's flags; no instance is empty. */
  function CellStatusOf(optimistic: map<string, bool>, date: string, p: WellnessPractice,
                        instance: Option<PracticeInstance>): (s: CellStatus)
    ensures PracticeKey(date, p) in optimistic ==>
      s == (if optimistic[PracticeKey(date, p)] then CompletedCell else Incomplete)
    ensures PracticeKey(date, p) !in optimistic && instance.None? ==> s == EmptyCell
    ensures PracticeKey(date, p) !in optimistic && instance.Some? ==>
      (s == CompletedLinked <==> instance.value.completed && IsLinked(instance.value)) &&
      (s == CompletedCell <==> instance.value.completed && !IsLinked(instance.value)) &&
      (s == LinkedCell <==> !instance.value.completed && IsLinked(instance.value)) &&
      (s == Incomplete <==> !instance.value.completed && !IsLinked(instance.value))
  {
    var key := PracticeKey(date, p);
    if key in optimistic then (if optimistic[key] then CompletedCell else Incomplete)
    else if instance.Some? then
      var i := instance.value;
      if i.completed && IsLinked(i) then CompletedLinked
      else if i.completed then CompletedCell
      else if IsLinked(i) then LinkedCell
      else Incomplete
    else EmptyCell
  }

  datatype CellIcon = CheckedBox | EmptyBox

  /** `getCellIcon`: the check mark for the two completed statuses. */
  function CellIconOf(s: CellStatus): (i: CellIcon)
    ensures i == CheckedBox <==> s == CompletedCell || s == CompletedLinked
  {
    match s
    case CompletedCell => CheckedBox
    case CompletedLinked => CheckedBox
    case _ => EmptyBox
  }

  /** Without a pending value, a cell is checked exactly when its
      instance is completed. */
  lemma CheckedIffCompleted(optimistic: map<string, bool>, date: string, p: WellnessPractice,
                            instance: Option<PracticeInstance>)
    requires PracticeKey(date, p) !in optimistic
    ensures CellIconOf(CellStatusOf(optimistic, date, p, instance)) == CheckedBox <==>
      instance.Some? && instance.value.completed
  {
  }

  /** The instance a cell shows: `practices.find` by date and practice. */
  function FindInstance(instances: seq<PracticeInstance>, date: string, p: WellnessPractice): (r: Option<PracticeInstance>)
    ensures r.Some? ==> r.value in instances && r.value.date == date && r.value.practice == p
    ensures r.None? ==> forall i :: i in instances ==> !(i.date == date && i.practice == p)
  {
    var k := IndexWhere(instances, (i: PracticeInstance) => i.date == date && i.practice == p);
    if k < 0 then None else Some(instances[k])
  }

  // ---------------------------------------------------------------------------
  // The week's days.

  /** `getWeekDates`: the seven days from the week start, or none when the
      start does not read as a date. The days are built one at a time, as
      the source pushes them. */
  method GetWeekDates(weekStart: string) returns (dates: seq<Date>)
    ensures ParseIsoDay(weekStart).None? ==> dates == []
    ensures ParseIsoDay(weekStart).Some? ==>
      |dates| == 7 &&
      (forall i :: 0 <= i < 7 ==>
        Valid(dates[i]) && DayNumber(dates[i]) == DayNumber(ParseIsoDay(weekStart).value) + i) &&
      dates[0] == ParseIsoDay(weekStart).value
  {
    var parsed := ParseIsoDay(weekStart);
    if parsed.None? {
      return [];
    }
    var start := parsed.value;
    dates := [];
    var i := 0;
    while i < 7
      invariant 0 <= i <= 7 && |dates| == i
      invariant forall j :: 0 <= j < i ==> Valid(dates[j]) && DayNumber(dates[j]) == DayNumber(start) + j
    {
      dates := dates + [AddDays(start, i)];
      i := i + 1;
    }
    DayNumberOrder(dates[0], start);
  }

  /** A practice update the grid asks its parent for. */
  datatype PracticeUpdate = PracticeUpdate(date: string, practice: WellnessPractice, completed: bool)

  /** The grid's own state: the pending optimistic values by cell key. */
  class Grid {
    var optimisticUpdates: map<string, bool>

    constructor ()
      ensures optimisticUpdates == map[]
    {
      optimisticUpdates := map[];
    }

    /** `handleCellClick` up to the awaited update: while loading nothing
        happens; otherwise the cell gets an optimistic value (the toggled
        flag, or done when it has no instance) and the update is sent. */
    method HandleCellClick(loading: bool, date: string, p: WellnessPractice,
                           instance: Option<PracticeInstance>)
      returns (update: Option<PracticeUpdate>)
      modifies this
      ensures loading ==> update == None && optimisticUpdates == old(optimisticUpdates)
      ensures !loading ==>
        var v := if instance.Some? then !instance.value.completed else true;
        update == Some(PracticeUpdate(date, p, v)) &&
        optimisticUpdates == old(optimisticUpdates)[PracticeKey(date, p) := v]
    {
      if loading {
        return None;
      }
      var key := PracticeKey(date, p);
      var v := if instance.Some? then !instance.value.completed else true;
      optimisticUpdates := optimisticUpdates[key := v];
      update := Some(PracticeUpdate(date, p, v));
    }

    /** The awaited update has settled: success and failure both drop the
        cell's optimistic value, and nothing else. */
    method SettleCellClick(date: string, p: WellnessPractice, succeeded: bool)
      modifies this
      ensures optimisticUpdates == old(optimisticUpdates) - {PracticeKey(date, p)}
    {
      optimisticUpdates := optimisticUpdates - {PracticeKey(date, p)};
    }
  }

  /** While its value is pending a clicked cell shows the value it was set
      to; once settled it shows the instance again. */
  lemma OptimisticCellShown(optimistic: map<string, bool>, date: string, p: WellnessPractice,
                            instance: Option<PracticeInstance>, v: bool)
    ensures CellStatusOf(optimistic[PracticeKey(date, p) := v], date, p, instance) ==
      (if v then CompletedCell else Incomplete)
    ensures CellStatusOf(optimistic - {PracticeKey(date, p)}, date, p, instance) ==
      CellStatusOf(map[], date, p, instance)
  {
  }
}
