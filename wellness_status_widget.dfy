/** The wellness status widget (`src/components/WellnessStatusWidget.tsx`).
    For a selected day, some days before or after today, it shows each
    practice's progress in that day's Monday-to-Sunday week, and whether it
    was done on that day. Tapping a practice today marks it done; tapping it
    on another day only opens its journal. Journal entries live in a local
    dictionary keyed by `date-practice`. Today and the server's answers are
    inputs, and ISO days are read as calendar days. */
module WellnessStatusWidget {
  import opened Wrappers
  import opened Text
  import opened Seqs
  import opened CivilDate
  import opened Tasks

  // ---------------------------------------------------------------------------
  // getDateInfo

  /** `base` is the selected day, today moved by the offset, and its week
      can be written as ISO days. */
  predicate SelectedDay(today: Date, base: Date, offset: int)
  {
    Valid(today) && today.year <= 9999 && Valid(base) && 2 <= base.year <= 9998 &&
    DayNumber(base) == DayNumber(today) + offset
  }

  /** `getDateInfo` without the locale week label. */
  datatype DateInfo = DateInfo(weekStart: string, weekEnd: string, currentDate: string,
                               today: string, isToday: bool)

  /** The Sunday closing the week of a day before year 9999 still has a
      four-digit year. */
  lemma WeekEndYear(base: Date, sunday: Date)
    requires Valid(base) && base.year <= 9998 && Valid(sunday) && DayNumber(sunday) <= DayNumber(base) + 6
    ensures sunday.year <= 9999
  {
    var next, bound := Date(base.year + 1, 1, 1), Date(base.year + 1, 1, 7);
    DayNumberOrder(base, next);
    assert DayNumber(bound) == DayNumber(next) + 6;
    DayNumberOrder(sunday, bound);
  }

  function GetDateInfo(today: Date, base: Date, offset: int): DateInfo
    requires SelectedDay(today, base, offset)
  {
    var monday := MondayOf(base);
    DayNumberOrder(base, monday);
    WeekEndYear(base, AddDays(monday, 6));
    DateInfo(IsoDay(monday), IsoDay(AddDays(monday, 6)), CurrentDate(base), IsoDay(today), offset == 0)
  }

  /** The selected day as `getDateInfo` reports it in `currentDate`, the
      date the handlers key statuses and journals by. */
  function CurrentDate(base: Date): string
    requires Valid(base) && base.year <= 9999
  {
    IsoDay(base)
  }

  /** The week starts on the Monday on or before the selected day (six days
      back from a Sunday) and ends six days later on a Sunday, so the selected
      day lies inside it; the day shown is today exactly when the offset is
      zero. */
  lemma GetDateInfoCorrect(today: Date, base: Date, offset: int)
    requires SelectedDay(today, base, offset)
    ensures var info := GetDateInfo(today, base, offset);
      ParseIsoDay(info.currentDate) == Some(base) &&
      ParseIsoDay(info.weekStart).Some? && ParseIsoDay(info.weekEnd).Some? &&
      Weekday(ParseIsoDay(info.weekStart).value) == 1 &&
      Weekday(ParseIsoDay(info.weekEnd).value) == 0 &&
      DayNumber(ParseIsoDay(info.weekEnd).value) == DayNumber(ParseIsoDay(info.weekStart).value) + 6 &&
      DayNumber(base) - 6 <= DayNumber(ParseIsoDay(info.weekStart).value) <= DayNumber(base) &&
      (Weekday(base) == 0 ==> DayNumber(ParseIsoDay(info.weekStart).value) == DayNumber(base) - 6)
  {
    var monday := MondayOf(base);
    MondayOfCorrect(base);
    DayNumberOrder(base, monday);
    WeekEndYear(base, AddDays(monday, 6));
    var sunday := AddDays(monday, 6);
    var info := GetDateInfo(today, base, offset);
    assert info.weekStart == IsoDay(monday) && info.weekEnd == IsoDay(sunday) && info.currentDate == IsoDay(base);
    WeekdayShift(monday, sunday, 6);
    ParseIsoDayRoundTrip(monday);
    ParseIsoDayRoundTrip(sunday);
    ParseIsoDayRoundTrip(base);
  }

  /** The selected day's ISO day sorts inside its week, and it is today's
      exactly when the offset is zero. */
  lemma GetDateInfoOrder(today: Date, base: Date, offset: int)
    requires SelectedDay(today, base, offset)
    ensures var info := GetDateInfo(today, base, offset);
      StrLessEq(info.weekStart, info.currentDate) && StrLessEq(info.currentDate, info.weekEnd) &&
      (info.isToday <==> info.currentDate == info.today)
  {
    var monday := MondayOf(base);
    DayNumberOrder(base, monday);
    DayNumberOrder(monday, base);
    WeekEndYear(base, AddDays(monday, 6));
    var sunday := AddDays(monday, 6);
    DayNumberOrder(base, sunday);
    DayNumberOrder(sunday, base);
    IsoDayOrder(monday, base);
    IsoDayOrder(base, sunday);
    IsoDayOrder(base, today);
    DayNumberOrder(base, today);
  }

  // ---------------------------------------------------------------------------
  // Targets and statuses.

  /** This widget's own `PRACTICE_TARGETS`: the four daily practices (here
      Savoring Reflection is one of them) aim at 7 a week, the others at 2. */
  function IsDaily(p: WellnessPractice): bool
  {
    p in {Gratitude, Meditation, SavoringReflection, Exercise}
  }

  function WeeklyTarget(p: WellnessPractice): (n: nat)
    ensures n == 7 <==> IsDaily(p)
    ensures n == 2 <==> !IsDaily(p)
  {
    if IsDaily(p) then 7 else 2
  }

  /** One practice's row. `journalEntry` is `None` where the dictionary has
      no such key. */
  datatype PracticeStatus = PracticeStatus(
    practice: WellnessPractice,
    completedToday: bool,
    weeklyProgress: nat,
    weeklyTarget: nat,
    hasJournal: bool,
    journalEntry: Option<string>)

  function InstancesOf(instances: seq<PracticeInstance>, p: WellnessPractice): seq<PracticeInstance>
  {
    Filter(instances, (i: PracticeInstance) => i.practice == p)
  }

  function IsCompleted(): PracticeInstance -> bool
  {
    (i: PracticeInstance) => i.completed
  }

  /** `practiceInstances.some(p => p.date === currentDate && p.completed)`. */
  predicate DoneOn(instances: seq<PracticeInstance>, p: WellnessPractice, date: string)
  {
    exists i :: 0 <= i < |InstancesOf(instances, p)| &&
      InstancesOf(instances, p)[i].date == date && InstancesOf(instances, p)[i].completed
  }

  function JournalLookup(journal: map<string, string>, key: string): Option<string>
  {
    if key in journal then Some(journal[key]) else None
  }

  /** The status `fetchWellnessStatus` computes for one practice. */
  function StatusFor(instances: seq<PracticeInstance>, date: string, journal: map<string, string>,
                     p: WellnessPractice): PracticeStatus
  {
    var key := PracticeKey(date, p);
    PracticeStatus(p, DoneOn(instances, p, date), Count(InstancesOf(instances, p), IsCompleted()),
      WeeklyTarget(p), key in journal && journal[key] != "", JournalLookup(journal, key))
  }

  /** One status per practice, in the order of `PRACTICE_DISPLAY_NAMES`. */
  function StatusesOf(instances: seq<PracticeInstance>, date: string, journal: map<string, string>)
    : (r: seq<PracticeStatus>)
    ensures |r| == |AllPractices|
    ensures forall k :: 0 <= k < |r| ==> r[k] == StatusFor(instances, date, journal, AllPractices[k])
  {
    seq(|AllPractices|, k requires 0 <= k < |AllPractices| => StatusFor(instances, date, journal, AllPractices[k]))
  }

  /** A practice done on the selected day counts towards its weekly
      progress, which never exceeds the practice's instances; the journal flag
      is set exactly when a non-empty entry is stored for that day. */
  lemma StatusForCorrect(instances: seq<PracticeInstance>, date: string, journal: map<string, string>,
                         p: WellnessPractice)
    ensures var s := StatusFor(instances, date, journal, p);
      s.practice == p && s.weeklyTarget == WeeklyTarget(p) &&
      (s.completedToday ==> s.weeklyProgress >= 1) &&
      s.weeklyProgress <= |InstancesOf(instances, p)| &&
      (s.hasJournal <==> s.journalEntry.Some? && s.journalEntry.value != "") &&
      (s.completedToday <==> exists i :: i in instances && i.practice == p && i.date == date && i.completed)
  {
    DoneOnCounted(instances, p, date);
    DoneOnFound(instances, p, date);
  }

  /** Done on the day means at least one completed instance counted. */
  lemma DoneOnCounted(instances: seq<PracticeInstance>, p: WellnessPractice, date: string)
    ensures DoneOn(instances, p, date) ==> Count(InstancesOf(instances, p), IsCompleted()) >= 1
  {
    var mine := InstancesOf(instances, p);
    if DoneOn(instances, p, date) {
      FilterMembers(mine, IsCompleted());
      var k :| 0 <= k < |mine| && mine[k].date == date && mine[k].completed;
      assert mine[k] in Filter(mine, IsCompleted());
    }
  }

  /** Done on the day means a completed instance of the practice on it. */
  lemma DoneOnFound(instances: seq<PracticeInstance>, p: WellnessPractice, date: string)
    ensures DoneOn(instances, p, date) <==>
      exists i :: i in instances && i.practice == p && i.date == date && i.completed
  {
    var mine := InstancesOf(instances, p);
    FilterMembers(instances, (i: PracticeInstance) => i.practice == p);
    if DoneOn(instances, p, date) {
      var k :| 0 <= k < |mine| && mine[k].date == date && mine[k].completed;
      assert mine[k] in mine;
    }
    if exists i :: i in instances && i.practice == p && i.date == date && i.completed {
      var i :| i in instances && i.practice == p && i.date == date && i.completed;
      assert i in mine;
      var k :| 0 <= k < |mine| && mine[k] == i;
      assert mine[k].date == date && mine[k].completed;
    }
  }

  /** Savoring Reflection is the one practice whose target differs from the
      weekly grid's: daily here, once a week there. */
  lemma TargetsAgainstGrid(p: WellnessPractice)
    ensures p == SavoringReflection ==> WeeklyTarget(p) == 7
    ensures p in {Gratitude, Meditation, Exercise} ==> WeeklyTarget(p) == 7
    ensures p in {Kindness, SocialOutreach, NoveltyChallenge} ==> WeeklyTarget(p) == 2
  {
  }

  // ---------------------------------------------------------------------------
  // getDateDisplayText

  datatype DateLabel = Today | Yesterday | Tomorrow | DaysAgo(n: nat) | DaysAhead(n: nat)

  function DateLabelOf(offset: int): (l: DateLabel)
    ensures l == Today <==> offset == 0
    ensures l == Yesterday <==> offset == -1
    ensures l == Tomorrow <==> offset == 1
    ensures l.DaysAgo? <==> offset < -1
    ensures l.DaysAhead? <==> offset > 1
  {
    if offset == 0 then Today
    else if offset == -1 then Yesterday
    else if offset == 1 then Tomorrow
    else if offset < 0 then DaysAgo(-offset)
    else DaysAhead(offset)
  }

  /** The offset a label names. */
  function LabelOffset(l: DateLabel): int
  {
    match l
    case Today => 0
    case Yesterday => -1
    case Tomorrow => 1
    case DaysAgo(n) => -(n as int)
    case DaysAhead(n) => n
  }

  /** Different offsets get different labels: the label names its offset. */
  lemma DateLabelRoundTrip(offset: int)
    ensures LabelOffset(DateLabelOf(offset)) == offset
  {
  }

  function DateLabelText(l: DateLabel): string
  {
    match l
    case Today => "Today"
    case Yesterday => "Yesterday"
    case Tomorrow => "Tomorrow"
    case DaysAgo(n) => NatToString(n) + " days ago"
    case DaysAhead(n) => NatToString(n) + " days ahead"
  }

  // ---------------------------------------------------------------------------
  // getProgressBarClass

  datatype ProgressClass = ProgressComplete | ProgressOnTrack | ProgressBehind

  /** Today's position in the Monday week: Monday 1 through Sunday 7. */
  function DayOfWeek(today: Date): (d: int)
    requires Valid(today)
    ensures 1 <= d <= 7
  {
    if Weekday(today) == 0 then 7 else Weekday(today)
  }

  /** The progress expected by day d: d for a daily practice, otherwise
      `Math.ceil((d / 7) * target)` in integer arithmetic. */
  function ExpectedProgress(p: WellnessPractice, d: int, target: nat): (e: int)
    requires 1 <= d <= 7
    ensures IsDaily(p) ==> e == d
    ensures !IsDaily(p) ==> 7 * (e - 1) < d * target <= 7 * e
  {
    if IsDaily(p) then d else (d * target + 6) / 7
  }

  function ProgressClassOf(p: WellnessPractice, progress: nat, target: nat, today: Date): (c: ProgressClass)
    requires Valid(today)
    ensures c == ProgressComplete <==> progress >= target
    ensures c == ProgressOnTrack <==> progress < target && progress >= ExpectedProgress(p, DayOfWeek(today), target)
  {
    if progress >= target then ProgressComplete
    else if progress >= ExpectedProgress(p, DayOfWeek(today), target) then ProgressOnTrack
    else ProgressBehind
  }

  /** For the status's own target, the expectation grows through the week
      from at least one on Monday to the whole target on Sunday; so by
      Sunday a practice is either complete or behind. */
  lemma ExpectedProgressBounds(p: WellnessPractice, d: int, e: int)
    requires 1 <= d <= e <= 7
    ensures 1 <= ExpectedProgress(p, d, WeeklyTarget(p)) <= ExpectedProgress(p, e, WeeklyTarget(p))
    ensures ExpectedProgress(p, 7, WeeklyTarget(p)) == WeeklyTarget(p)
  {
    var t := WeeklyTarget(p);
    var a, b := ExpectedProgress(p, d, t), ExpectedProgress(p, e, t);
    assert d * t <= e * t;
  }

  lemma SundayNeverOnTrack(p: WellnessPractice, progress: nat, today: Date)
    requires Valid(today) && Weekday(today) == 0
    ensures ProgressClassOf(p, progress, WeeklyTarget(p), today) != ProgressOnTrack
  {
    ExpectedProgressBounds(p, 7, 7);
  }

  /** More progress never gives a worse class. */
  function ClassRank(c: ProgressClass): nat
  {
    match c
    case ProgressBehind => 0
    case ProgressOnTrack => 1
    case ProgressComplete => 2
  }

  lemma ProgressClassMonotone(p: WellnessPractice, a: nat, b: nat, target: nat, today: Date)
    requires Valid(today) && a <= b
    ensures ClassRank(ProgressClassOf(p, a, target, today)) <= ClassRank(ProgressClassOf(p, b, target, today))
  {
  }

  // ---------------------------------------------------------------------------
  // The widget's state.

  const LoadError := "Failed to load wellness status"
  const UpdateError := "Failed to update practice"

  /** The first status of a practice: `practiceStatuses.find`. */
  function FindStatus(statuses: seq<PracticeStatus>, p: WellnessPractice): (r: Option<PracticeStatus>)
    ensures r.Some? ==> r.value in statuses && r.value.practice == p
    ensures r.None? ==> forall s :: s in statuses ==> s.practice != p
  {
    var k := IndexWhere(statuses, (s: PracticeStatus) => s.practice == p);
    if k < 0 then None else Some(statuses[k])
  }

  /** `updatedEntries` in `handleJournalSave`: trimmed text is stored, blank
      text deletes the key. */
  function SaveJournal(journal: map<string, string>, key: string, content: string): (r: map<string, string>)
    ensures key in r <==> Trim(content) != ""
    ensures key in r ==> r[key] == Trim(content)
    ensures forall k :: k != key ==> (k in r <==> k in journal) && (k in r ==> r[k] == journal[k])
  {
    if Trim(content) != "" then journal[key := Trim(content)] else journal - {key}
  }

  /** After a save the day's journal flag shows whether the text had
      anything but white space, the stored entry is the text without its
      surrounding white space, and every other practice keeps its entry. */
  lemma SaveJournalShown(instances: seq<PracticeInstance>, date: string, journal: map<string, string>,
                         p: WellnessPractice, q: WellnessPractice, content: string)
    ensures var after := SaveJournal(journal, PracticeKey(date, p), content);
      (StatusFor(instances, date, after, p).hasJournal <==> !IsBlank(content)) &&
      (!IsBlank(content) ==> StatusFor(instances, date, after, p).journalEntry == Some(Trim(content))) &&
      (IsBlank(content) ==> StatusFor(instances, date, after, p).journalEntry == None) &&
      (q != p ==> StatusFor(instances, date, after, q) == StatusFor(instances, date, journal, q))
  {
    SavedEntryShown(instances, date, journal, p, content);
    if q != p {
      OtherEntriesKept(instances, date, journal, p, q, content);
    }
  }

  lemma SavedEntryShown(instances: seq<PracticeInstance>, date: string, journal: map<string, string>,
                        p: WellnessPractice, content: string)
    ensures var after := SaveJournal(journal, PracticeKey(date, p), content);
      (StatusFor(instances, date, after, p).hasJournal <==> !IsBlank(content)) &&
      (!IsBlank(content) ==> StatusFor(instances, date, after, p).journalEntry == Some(Trim(content))) &&
      (IsBlank(content) ==> StatusFor(instances, date, after, p).journalEntry == None)
  {
    TrimEmptyIffBlank(content);
  }

  lemma OtherEntriesKept(instances: seq<PracticeInstance>, date: string, journal: map<string, string>,
                         p: WellnessPractice, q: WellnessPractice, content: string)
    requires q != p
    ensures var after := SaveJournal(journal, PracticeKey(date, p), content);
      StatusFor(instances, date, after, q) == StatusFor(instances, date, journal, q)
  {
    PracticeKeyInjective(date, p, q);
  }

  /** Saving an entry that was already saved stores the same thing again. */
  lemma SaveJournalIdempotent(journal: map<string, string>, key: string, content: string)
    ensures var once := SaveJournal(journal, key, content);
      SaveJournal(once, key, Trim(content)) == once
  {
    TrimIdempotent(content);
  }

  class StatusWidget {
    var statuses: seq<PracticeStatus>
    var isLoading: bool
    var error: Option<string>
    var showJournalFor: Option<WellnessPractice>
    var journalContent: string
    var journalEntries: map<string, string>
    /** 0 is today, -1 yesterday, and so on. */
    var currentDateOffset: int
    var weeklyScore: int

    constructor ()
      ensures statuses == [] && isLoading && error == None && showJournalFor == None
      ensures journalContent == "" && journalEntries == map[] && currentDateOffset == 0 && weeklyScore == 0
    {
      statuses := [];
      isLoading := true;
      error := None;
      showJournalFor := None;
      journalContent := "";
      journalEntries := map[];
      currentDateOffset := 0;
      weeklyScore := 0;
    }

    /** `fetchWellnessStatus` with the answers to its two requests (`None`:
        the request failed). The score request is made only after the
        practices arrived, and its failure just means a score of 0, as does
        an empty list or a falsy score. */
    method FetchWellnessStatus(today: Date, base: Date, practices: Option<seq<PracticeInstance>>, scores: Option<seq<int>>)
      requires SelectedDay(today, base, currentDateOffset)
      modifies this
      ensures practices.Some? ==>
        statuses == StatusesOf(practices.value, CurrentDate(base), journalEntries) &&
        error == None &&
        weeklyScore == (if scores.Some? && |scores.value| > 0 then scores.value[0] else 0)
      ensures practices.None? ==>
        statuses == old(statuses) && weeklyScore == old(weeklyScore) && error == Some(LoadError)
      ensures !isLoading && showJournalFor == old(showJournalFor) && journalContent == old(journalContent)
      ensures journalEntries == old(journalEntries) && currentDateOffset == old(currentDateOffset)
    {
      var date := CurrentDate(base);
      isLoading := true;
      error := None;
      if practices.None? {
        error := Some(LoadError);
      } else {
        weeklyScore := if scores.Some? && |scores.value| > 0 then scores.value[0] else 0;
        statuses := StatusesOf(practices.value, date, journalEntries);
      }
      isLoading := false;
    }

    /** `navigateDate`. */
    method NavigateDate(previous: bool)
      modifies this
      ensures currentDateOffset == old(currentDateOffset) + (if previous then -1 else 1)
      ensures statuses == old(statuses) && journalEntries == old(journalEntries)
      ensures showJournalFor == old(showJournalFor) && error == old(error)
    {
      currentDateOffset := currentDateOffset + (if previous then -1 else 1);
    }

    /** `goToToday`. */
    method GoToToday()
      modifies this
      ensures currentDateOffset == 0
      ensures statuses == old(statuses) && journalEntries == old(journalEntries)
      ensures showJournalFor == old(showJournalFor) && error == old(error)
    {
      currentDateOffset := 0;
    }

    /** `handlePracticeToggle`. `tokenOk` and `postOk` say whether the token
        and the completion request succeeded. It returns whether a completion
        was posted and whether a reload was started. On another day than
        today nothing is posted: only an existing journal opens. */
    method HandlePracticeToggle(today: Date, base: Date, p: WellnessPractice, tokenOk: bool, postOk: bool)
      returns (posted: bool, reload: bool)
      requires SelectedDay(today, base, currentDateOffset)
      modifies this
      ensures statuses == old(statuses) && journalEntries == old(journalEntries)
      ensures currentDateOffset == old(currentDateOffset) && isLoading == old(isLoading)
      ensures posted ==> old(currentDateOffset) == 0 && tokenOk
      ensures reload <==> posted && postOk
      ensures var key := PracticeKey(CurrentDate(base), p);
        var found := FindStatus(statuses, p);
        var opens := found.Some? &&
          (if currentDateOffset != 0 then found.value.hasJournal else found.value.completedToday);
        (!tokenOk ==>
          !posted && error == Some(UpdateError) &&
          showJournalFor == old(showJournalFor) && journalContent == old(journalContent)) &&
        (tokenOk && opens ==>
          !posted && showJournalFor == Some(p) && error == old(error) &&
          journalContent == (if key in journalEntries then journalEntries[key] else "")) &&
        (tokenOk && found.Some? && currentDateOffset == 0 && !found.value.completedToday ==>
          posted &&
          (postOk ==> showJournalFor == Some(p) && journalContent == "" && error == old(error)) &&
          (!postOk ==> showJournalFor == old(showJournalFor) && journalContent == old(journalContent) &&
                       error == Some(UpdateError))) &&
        (tokenOk && !opens && !(found.Some? && currentDateOffset == 0) ==>
          !posted && showJournalFor == old(showJournalFor) && journalContent == old(journalContent) &&
          error == old(error))
    {
      posted, reload := false, false;
      if !tokenOk {
        error := Some(UpdateError);
        return;
      }
      var found := FindStatus(statuses, p);
      if found.None? {
        return;
      }
      var key := PracticeKey(CurrentDate(base), p);
      if currentDateOffset != 0 {
        if found.value.hasJournal {
          showJournalFor := Some(p);
          journalContent := if key in journalEntries then journalEntries[key] else "";
        }
        return;
      }
      if found.value.completedToday {
        showJournalFor := Some(p);
        journalContent := if key in journalEntries then journalEntries[key] else "";
      } else {
        posted := true;
        if !postOk {
          error := Some(UpdateError);
          return;
        }
        showJournalFor := Some(p);
        journalContent := "";
        reload := true;
      }
    }

    /** `handleJournalSave`: with a journal open, its text is saved under
        the selected day's key and the journal closes. */
    method HandleJournalSave(today: Date, base: Date)
      requires SelectedDay(today, base, currentDateOffset)
      modifies this
      ensures old(showJournalFor).None? ==>
        journalEntries == old(journalEntries) && showJournalFor == None && journalContent == old(journalContent)
      ensures old(showJournalFor).Some? ==>
        journalEntries == SaveJournal(old(journalEntries),
          PracticeKey(CurrentDate(base), old(showJournalFor).value),
          old(journalContent)) &&
        showJournalFor == None && journalContent == ""
      ensures statuses == old(statuses) && error == old(error) && currentDateOffset == old(currentDateOffset)
    {
      if showJournalFor.None? {
        return;
      }
      var key := PracticeKey(CurrentDate(base), showJournalFor.value);
      journalEntries := SaveJournal(journalEntries, key, journalContent);
      showJournalFor := None;
      journalContent := "";
    }
  }
}
