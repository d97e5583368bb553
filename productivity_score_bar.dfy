/** The weekly productivity bar (`src/components/ProductivityScoreBar.tsx`): the
    Monday-to-Sunday week it labels, the colour and label bands of the
    score, and its loader, which retries every failure with a capped
    back-off until the call at attempt 4 gives up. */
module ProductivityScoreBar {
  import opened Wrappers
  import opened CivilDate
  import opened Retry

  /** The metrics record the server sends. */
  datatype Metrics = Metrics(
    completedTasks: int,
    createdTasks: int,
    completedMITs: int,
    createdMITs: int,
    taskScore: real,
    mitScore: real,
    finalScore: real)

  /** `getWeekRange`: the Monday on or before today and the Sunday six days
      after it; the label is the locale's "Week of <Monday>–<Sunday>". */
  datatype Week = Week(monday: Date, sunday: Date)

  function WeekRange(today: Date): Week
    requires Valid(today) && today.year >= 2
  {
    var monday := MondayOf(today);
    Week(monday, AddDays(monday, 6))
  }

  /** The week runs Monday to Sunday and contains today; a Sunday is the
      last day of its week. */
  lemma WeekRangeCorrect(today: Date)
    requires Valid(today) && today.year >= 2
    ensures var w := WeekRange(today);
      Weekday(w.monday) == 1 && Weekday(w.sunday) == 0 &&
      DayNumber(w.sunday) == DayNumber(w.monday) + 6 &&
      DayNumber(w.monday) <= DayNumber(today) <= DayNumber(w.sunday) &&
      (Weekday(today) == 0 <==> w.sunday == today)
  {
    var w := WeekRange(today);
    MondayOfCorrect(today);
    WeekdayShift(w.monday, w.sunday, 6);
    DayNumberOrder(w.sunday, today);
  }

  /** `getScoreColor`. */
  function ScoreColor(score: real): string
  {
    if score >= 80.0 then "#10b981"
    else if score >= 60.0 then "#f59e0b"
    else if score >= 40.0 then "#f97316"
    else "#ef4444"
  }

  /** `getScoreLabel`. */
  function ScoreLabel(score: real): string
  {
    if score >= 80.0 then "Excellent"
    else if score >= 60.0 then "Good"
    else if score >= 40.0 then "Fair"
    else "Needs Improvement"
  }

  /** The band's rank, 3 for the best. */
  function LabelRank(name: string): int
  {
    if name == "Excellent" then 3 else if name == "Good" then 2 else if name == "Fair" then 1 else 0
  }

  /** Colour and label share their bands: each label goes with exactly one
      colour. */
  lemma ColorMatchesLabel(score: real)
    ensures ScoreLabel(score) == "Excellent" <==> ScoreColor(score) == "#10b981"
    ensures ScoreLabel(score) == "Good" <==> ScoreColor(score) == "#f59e0b"
    ensures ScoreLabel(score) == "Fair" <==> ScoreColor(score) == "#f97316"
    ensures ScoreLabel(score) == "Needs Improvement" <==> ScoreColor(score) == "#ef4444"
  {
  }

  /** A higher score never gets a lower band. */
  lemma LabelMonotone(a: real, b: real)
    requires a <= b
    ensures LabelRank(ScoreLabel(a)) <= LabelRank(ScoreLabel(b))
  {
  }

  const TooManyAttempts := "Failed to load productivity metrics after multiple attempts"

  /** The bar's loader: the capped policy, no metrics yet. No failure of a
      request ever sets an error itself, so the fallback message is unused. */
  method NewBar() returns (bar: Loader<Option<Metrics>>)
    ensures fresh(bar) && bar.policy == Capped && bar.data == None && bar.isLoading
    ensures bar.tooManyMessage == TooManyAttempts && bar.error == None && bar.retryCount == 0
  {
    bar := new Loader(Capped, TooManyAttempts, "", None);
  }

  function MetricsAnswer(a: Answer<Metrics>): Answer<Option<Metrics>>
  {
    MapAnswer(a, (m: Metrics) => Some(m))
  }

  /** When every request fails the bar waits 1, 2, 4 and 8 seconds, asks
      the server four times and ends on the "after multiple attempts" error
      with a retry count of 4. */
  lemma AllFailingChain()
    ensures MaxRequests(Capped) == 4
    ensures DelayBefore(Capped, 0) == 1000 && DelayBefore(Capped, 1) == 2000
    ensures DelayBefore(Capped, 2) == 4000 && DelayBefore(Capped, 3) == 8000
    ensures FirstLoaded<Metrics>([], 4) == 4
  {
    BackoffSchedule(0);
  }
}
