/** The recent-activity feed (`src/components/RecentActivityFeed.tsx`): the
    icon and sentence for each activity, the relative time stamp, and how a
    response that is not a list is read. */
module RecentActivityFeed {
  import opened Wrappers
  import opened Text
  import opened Retry

  /** An activity as the server reports it; `kind` is its `type` string. */
  datatype Activity = Activity(
    id: string,
    kind: string,
    taskId: string,
    taskTitle: string,
    timestamp: string,
    oldValue: Option<string>,
    newValue: Option<string>)

  const CompletionKind := "completion"
  const PriorityChangeKind := "priority_change"
  const CreationKind := "creation"

  predicate KnownKind(kind: string)
  {
    kind == CompletionKind || kind == PriorityChangeKind || kind == CreationKind
  }

  /** The four icons: check mark, yellow circle, plus sign and memo. */
  datatype Icon = CheckMark | YellowCircle | PlusSign | Memo

  function ActivityIcon(kind: string): (i: Icon)
    ensures i == Memo <==> !KnownKind(kind)
  {
    if kind == CompletionKind then CheckMark
    else if kind == PriorityChangeKind then YellowCircle
    else if kind == CreationKind then PlusSign
    else Memo
  }

  const MitValue := "MIT"

  /** The words before the title in `getActivityDescription`. */
  function DescriptionPrefix(a: Activity): (p: string)
    ensures |p| >= 2 && p[|p| - 2..] == ": "
  {
    if a.kind == CompletionKind then "Completed: "
    else if a.kind == PriorityChangeKind then
      (if a.newValue == Some(MitValue) then "Moved to MIT: "
       else if a.oldValue == Some(MitValue) then "Moved from MIT: "
       else "Changed priority: ")
    else if a.kind == CreationKind then "Created: "
    else "Updated: "
  }

  /** The sentence ends with the task's title, after a colon and a space. */
  function ActivityDescription(a: Activity): (d: string)
    ensures var k := |d| - |a.taskTitle|;
      k >= 2 && d[k..] == a.taskTitle && d[k - 2..k] == ": "
  {
    var p := DescriptionPrefix(a);
    assert (p + a.taskTitle)[|p| - 2..|p|] == p[|p| - 2..];
    p + a.taskTitle
  }

  /** A priority change reads "Moved to MIT" when it enters the MIT list
      (even from MIT), "Moved from MIT" when it leaves it, and "Changed
      priority" otherwise; an unknown kind reads "Updated" with the memo
      icon; the title always ends the sentence. */
  lemma DescriptionCases(a: Activity)
    ensures a.kind == PriorityChangeKind && a.newValue == Some(MitValue) ==>
      ActivityDescription(a) == "Moved to MIT: " + a.taskTitle
    ensures a.kind == PriorityChangeKind && a.newValue != Some(MitValue) && a.oldValue == Some(MitValue) ==>
      ActivityDescription(a) == "Moved from MIT: " + a.taskTitle
    ensures a.kind == PriorityChangeKind && a.newValue != Some(MitValue) && a.oldValue != Some(MitValue) ==>
      ActivityDescription(a) == "Changed priority: " + a.taskTitle
    ensures !KnownKind(a.kind) <==> ActivityDescription(a) == "Updated: " + a.taskTitle
    ensures !KnownKind(a.kind) <==> ActivityIcon(a.kind) == Memo
    ensures ActivityDescription(a)[|ActivityDescription(a)| - |a.taskTitle|..] == a.taskTitle
  {
    var p, d := DescriptionPrefix(a), ActivityDescription(a);
    var u := "Updated: " + a.taskTitle;
    assert d[..|p|] == p;
    assert u[..9] == "Updated: ";
    assert KnownKind(a.kind) ==> p != "Updated: ";
  }

  /** The relative time `formatTimestamp` shows. */
  datatype Elapsed = JustNow | MinutesAgo(m: nat) | HoursAgo(h: nat) | DaysAgo(d: nat)

  const MinuteMs := 60000

  /** `Math.floor((now - then) / 60000)` minutes, then the bands. */
  function ElapsedSince(nowMs: int, thenMs: int): Elapsed
  {
    var minutes := (nowMs - thenMs) / MinuteMs;
    if minutes < 1 then JustNow
    else if minutes < 60 then MinutesAgo(minutes)
    else if minutes < 1440 then HoursAgo(minutes / 60)
    else DaysAgo(minutes / 1440)
  }

  /** Each band states the whole minutes elapsed to its own precision: a
      time in the future or under a minute ago is "Just now", then minutes
      1 to 59, hours 1 to 23, and whole days from one on. */
  lemma ElapsedSinceBands(nowMs: int, thenMs: int)
    ensures var e := ElapsedSince(nowMs, thenMs);
      var minutes := (nowMs - thenMs) / MinuteMs;
      (e == JustNow <==> nowMs - thenMs < MinuteMs) &&
      (e.MinutesAgo? ==> 1 <= e.m < 60 && e.m * MinuteMs <= nowMs - thenMs < (e.m + 1) * MinuteMs) &&
      (e.HoursAgo? ==> 1 <= e.h < 24 && e.h * 60 <= minutes < (e.h + 1) * 60) &&
      (e.DaysAgo? ==> e.d >= 1 && e.d * 1440 <= minutes < (e.d + 1) * 1440)
  {
  }

  /** "Just now", or the count of the band followed by its unit and "ago". */
  function ElapsedText(e: Elapsed): (s: string)
    ensures s == "Just now" <==> e.JustNow?
    ensures e.MinutesAgo? ==> Numbered(s, e.m, "m ago")
    ensures e.HoursAgo? ==> Numbered(s, e.h, "h ago")
    ensures e.DaysAgo? ==> Numbered(s, e.d, "d ago")
  {
    match e
    case JustNow => "Just now"
    case MinutesAgo(m) =>
      NumberedRendering(m, "m ago");
      NumberedStartsWithDigit(NatToString(m) + "m ago", m, "m ago");
      NatToString(m) + "m ago"
    case HoursAgo(h) =>
      NumberedRendering(h, "h ago");
      NumberedStartsWithDigit(NatToString(h) + "h ago", h, "h ago");
      NatToString(h) + "h ago"
    case DaysAgo(d) =>
      NumberedRendering(d, "d ago");
      NumberedStartsWithDigit(NatToString(d) + "d ago", d, "d ago");
      NatToString(d) + "d ago"
  }

  /** The response of `getRecentActivity(5)`: the list itself, or something
      else. */
  datatype ActivityResponse = ListResponse(items: seq<Activity>) | OtherResponse

  /** A response that is not a list reads as no activity. */
  function Activities(r: ActivityResponse): (a: seq<Activity>)
    ensures r.OtherResponse? ==> a == []
    ensures r.ListResponse? ==> a == r.items
  {
    if r.ListResponse? then r.items else []
  }

  const TooManyAttempts := "Failed to load recent activity after multiple attempts"
  const FallbackError := "Failed to load recent activity"

  method NewFeed() returns (feed: Loader<seq<Activity>>)
    ensures fresh(feed) && feed.policy == Standard && feed.data == [] && feed.isLoading
    ensures feed.tooManyMessage == TooManyAttempts && feed.fallbackMessage == FallbackError
    ensures feed.error == None && feed.retryCount == 0
  {
    feed := new Loader(Standard, TooManyAttempts, FallbackError, []);
  }

  function FeedAnswer(a: Answer<ActivityResponse>): Answer<seq<Activity>>
  {
    MapAnswer(a, Activities)
  }
}
