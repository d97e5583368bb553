/** The wellness prompt tile (`src/components/WellnessPromptTile.tsx`): which
    of three daily practices are done today, the request range it asks
    for, and the navigation it triggers. Today's date is an input. */
module WellnessPromptTile {
  import opened Wrappers
  import opened Text
  import opened CivilDate
  import opened Tasks
  import opened WellnessApi
  import opened Retry

  /** The three practices the tile tracks. */
  datatype PracticeFlags = PracticeFlags(gratitude: bool, reflection: bool, exercise: bool)

  datatype WellnessStatus = WellnessStatus(completedToday: nat, totalPractices: nat, practices: PracticeFlags)

  /** `todaysInstances.some(p => p.practice === x && p.completed)`, with the
      instances already narrowed to today's ISO day. */
  predicate DoneToday(instances: seq<PracticeInstance>, today: string, p: WellnessPractice)
  {
    exists i :: 0 <= i < |instances| && instances[i].date == today &&
      instances[i].practice == p && instances[i].completed
  }

  function B2N(b: bool): nat
  {
    if b then 1 else 0
  }

  const TotalPractices: nat := 3

  function StatusOf(instances: seq<PracticeInstance>, today: string): (s: WellnessStatus)
    ensures s.completedToday <= s.totalPractices == TotalPractices
  {
    var flags := PracticeFlags(
      DoneToday(instances, today, Gratitude),
      DoneToday(instances, today, SavoringReflection),
      DoneToday(instances, today, Exercise));
    WellnessStatus(B2N(flags.gratitude) + B2N(flags.reflection) + B2N(flags.exercise), TotalPractices, flags)
  }

  /** "Complete" when every tracked practice is done. */
  predicate IsComplete(s: WellnessStatus)
  {
    s.completedToday == s.totalPractices
  }

  /** The tile is complete exactly when a completed Gratitude, Savoring
      Reflection and Exercise instance is each dated today; other practices
      and other days never count. */
  lemma StatusOfCorrect(instances: seq<PracticeInstance>, today: string)
    ensures IsComplete(StatusOf(instances, today)) <==>
      DoneToday(instances, today, Gratitude) && DoneToday(instances, today, SavoringReflection) &&
      DoneToday(instances, today, Exercise)
    ensures StatusOf(instances, today).completedToday == 0 <==>
      !DoneToday(instances, today, Gratitude) && !DoneToday(instances, today, SavoringReflection) &&
      !DoneToday(instances, today, Exercise)
    ensures (forall i :: 0 <= i < |instances| ==> instances[i].date != today) ==>
      StatusOf(instances, today).completedToday == 0
  {
  }

  /** The days the tile asks the server for: from `getWeekStart(today)` to
      six days after today (not after the week start). */
  datatype QueryRange = QueryRange(start: string, end: string)

  /** Days are modelled from year 2, so that the week start (up to six days
      back) stays in a year the calendar holds, to 9998, so that the week's
      last day has a four-digit year. */
  function RequestRange(today: Date): QueryRange
    requires Valid(today) && 2 <= today.year <= 9998
  {
    LaterYears(today);
    var weekEnd := AddDays(today, 6);
    NearYear(today, weekEnd);
    QueryRange(GetWeekStart(today), IsoDay(weekEnd))
  }

  /** From year 1001 on: `getWeekStart` prints the year of a week start
      without padding, which agrees with the four-digit ISO day only from
      year 1000 on, and the week start may lie in the year before today's. */
  lemma WeekStartNotAfter(today: Date)
    requires Valid(today) && 1001 <= today.year <= 9998
    ensures StrLessEq(GetWeekStart(today), IsoDay(today))
  {
    var monday := MondayOf(today);
    GetWeekStartIsMonday(today);
    DayNumberOrder(today, monday);
    assert DaysBeforeYear(today.year) == DaysBeforeYear(today.year - 1) + DaysInYear(today.year - 1);
    DayNumberOrder(monday, Date(today.year - 1, 1, 1));
    YmdIsIsoDay(monday);
    IsoDayOrder(monday, today);
  }

  lemma WeekEndNotBefore(today: Date)
    requires Valid(today) && 2 <= today.year <= 9998
    ensures StrLessEq(IsoDay(today), RequestRange(today).end)
  {
    LaterYears(today);
    var weekEnd := AddDays(today, 6);
    NearYear(today, weekEnd);
    DayNumberOrder(today, weekEnd);
    IsoDayOrder(today, weekEnd);
  }

  /** Today's ISO day lies in the requested range, so today's instances are
      among those the server sends. */
  lemma TodayInRange(today: Date)
    requires Valid(today) && 1001 <= today.year <= 9998
    ensures var r := RequestRange(today);
      StrLessEq(r.start, IsoDay(today)) && StrLessEq(IsoDay(today), r.end)
  {
    WeekStartNotAfter(today);
    WeekEndNotBefore(today);
  }

  const TooManyAttempts := "Failed to load wellness status after multiple attempts"
  const FallbackError := "Failed to load wellness status"

  method NewTile() returns (tile: Loader<Option<WellnessStatus>>)
    ensures fresh(tile) && tile.policy == Standard && tile.data == None && tile.isLoading
    ensures tile.tooManyMessage == TooManyAttempts && tile.fallbackMessage == FallbackError
    ensures tile.error == None && tile.retryCount == 0
  {
    tile := new Loader(Standard, TooManyAttempts, FallbackError, None);
  }

  function StatusAnswer(a: Answer<seq<PracticeInstance>>, today: string): Answer<Option<WellnessStatus>>
  {
    MapAnswer(a, (instances: seq<PracticeInstance>) => Some(StatusOf(instances, today)))
  }

  /** What the tile emits when asked to open the wellness tab. */
  datatype Effect = NavigateToWellnessTabEvent | NavigateCallback

  /** The `navigateToWellnessTab` event goes first, then the optional
      callback. */
  function NavigateEffects(hasCallback: bool): (e: seq<Effect>)
    ensures |e| >= 1 && e[0] == NavigateToWellnessTabEvent
    ensures |e| == 2 <==> hasCallback
    ensures hasCallback ==> e[1] == NavigateCallback
  {
    [NavigateToWellnessTabEvent] + (if hasCallback then [NavigateCallback] else [])
  }
}
