/** The conversation list beside the assistant chat
    (`src/components/tvagent/ThreadSidebar.tsx`): how long ago a thread was
    active, the list a load leaves, and the delete dialog. The server's
    answers are inputs. */
module ThreadSidebar {
  import opened Wrappers
  import opened Text
  import opened Seqs
  import opened Retry

  datatype ConversationThread = ConversationThread(
    threadId: string,
    title: string,
    lastMessage: Option<string>,
    lastActivity: string,
    messageCount: nat,
    isActive: bool)

  // ---------------------------------------------------------------------------
  // formatLastActivity

  const HourMs: nat := 3600000
  const DayMs: nat := 24 * HourMs

  /** What `formatLastActivity` shows; `LocalDate` is the browser's own
      rendering of the date, which is left out. */
  datatype ActivityLabel = JustNow | HoursAgo(hours: nat) | DaysAgo(days: nat) | LocalDate

  /** The label for a thread active `elapsedMs` before now; `None` is a
      timestamp that does not read as a date, whose differences are NaN and
      fail every comparison. Hours and days are floored. */
  function ActivityLabelOf(elapsedMs: Option<int>): (l: ActivityLabel)
    ensures elapsedMs.None? ==> l == LocalDate
    ensures elapsedMs.Some? ==>
      var d := elapsedMs.value;
      (l == JustNow <==> d < HourMs) &&
      (l.HoursAgo? <==> HourMs <= d < DayMs) &&
      (l.DaysAgo? <==> DayMs <= d < 7 * DayMs) &&
      (l == LocalDate <==> d >= 7 * DayMs) &&
      (l.HoursAgo? ==> l.hours * HourMs <= d < (l.hours + 1) * HourMs) &&
      (l.DaysAgo? ==> l.days * DayMs <= d < (l.days + 1) * DayMs)
  {
    if elapsedMs.None? then LocalDate
    else
      var hours := elapsedMs.value / HourMs;
      var days := hours / 24;
      DaysOfHours(elapsedMs.value, hours, days);
      if hours < 1 then JustNow
      else if hours < 24 then HoursAgo(hours)
      else if days < 7 then DaysAgo(days)
      else LocalDate
  }

  /** Flooring to hours and then to days floors to days. */
  lemma DaysOfHours(d: int, hours: int, days: int)
    requires hours == d / HourMs && days == hours / 24
    ensures hours * HourMs <= d < (hours + 1) * HourMs
    ensures days * 24 <= hours < (days + 1) * 24
    ensures days * DayMs <= d < (days + 1) * DayMs
  {
    assert days * DayMs == (days * 24) * HourMs;
    assert (days + 1) * DayMs == ((days + 1) * 24) * HourMs;
  }

  /** The label as text. */
  function ActivityText(l: ActivityLabel, localDate: string): (s: string)
    ensures l.HoursAgo? ==> s == NatToString(l.hours) + "h ago"
    ensures l.DaysAgo? ==> s == NatToString(l.days) + "d ago"
  {
    match l
    case JustNow => "Just now"
    case HoursAgo(h) => NatToString(h) + "h ago"
    case DaysAgo(n) => NatToString(n) + "d ago"
    case LocalDate => localDate
  }

  /** Older activity never shows a smaller count of hours or days. */
  lemma LabelsOrdered(a: int, b: int)
    requires a <= b
    ensures ActivityLabelOf(Some(a)).DaysAgo? && ActivityLabelOf(Some(b)).DaysAgo? ==>
      ActivityLabelOf(Some(a)).days <= ActivityLabelOf(Some(b)).days
    ensures ActivityLabelOf(Some(a)).HoursAgo? && ActivityLabelOf(Some(b)).HoursAgo? ==>
      ActivityLabelOf(Some(a)).hours <= ActivityLabelOf(Some(b)).hours
  {
  }

  // ---------------------------------------------------------------------------
  // The list.

  function OtherThan(threadId: string): ConversationThread -> bool
  {
    (t: ConversationThread) => t.threadId != threadId
  }

  /** Removing a thread keeps every other thread, as often as it was
      there and in its order, and drops all with that id. */
  lemma RemoveThreadCorrect(threads: seq<ConversationThread>, threadId: string)
    ensures forall t :: t in Filter(threads, OtherThan(threadId)) <==> t in threads && t.threadId != threadId
    ensures forall t: ConversationThread :: t.threadId != threadId ==>
      multiset(Filter(threads, OtherThan(threadId)))[t] == multiset(threads)[t]
  {
    FilterMembers(threads, OtherThan(threadId));
    forall t: ConversationThread | t.threadId != threadId
      ensures multiset(Filter(threads, OtherThan(threadId)))[t] == multiset(threads)[t]
    {
      FilterCount(threads, OtherThan(threadId), t);
    }
  }

  /** What the sidebar's body shows. */
  datatype Content = Loading | NoConversations | ThreadList(threads: seq<ConversationThread>)

  function ContentOf(loading: bool, threads: seq<ConversationThread>): (c: Content)
    ensures c == Loading <==> loading
    ensures c == NoConversations <==> !loading && threads == []
    ensures c.ThreadList? ==> c.threads == threads && |threads| > 0
  {
    if loading then Loading else if |threads| == 0 then NoConversations else ThreadList(threads)
  }

  class Sidebar {
    var threads: seq<ConversationThread>
    var loading: bool
    var deletingThreadId: Option<string>
    var deleteModalOpen: bool
    var threadToDelete: Option<ConversationThread>

    constructor ()
      ensures threads == [] && loading && deletingThreadId == None
      ensures !deleteModalOpen && threadToDelete == None
    {
      threads := [];
      loading := true;
      deletingThreadId := None;
      deleteModalOpen := false;
      threadToDelete := None;
    }

    /** A thread's buttons are disabled while that thread is being deleted. */
    predicate ItemDisabled(t: ConversationThread)
      reads this
    {
      deletingThreadId == Some(t.threadId)
    }

    /** The dialog's title line, empty when no thread is pending. */
    function DialogTitle(): (s: string)
      reads this
      ensures threadToDelete.Some? ==> s == threadToDelete.value.title
      ensures threadToDelete.None? ==> s == ""
    {
      if threadToDelete.Some? then threadToDelete.value.title else ""
    }

    /** `loadThreads` once the request settles: the list answered, or an
        empty list when the request failed; loading is over either way. */
    method LoadThreads(answer: Answer<seq<ConversationThread>>)
      modifies this
      ensures threads == (if answer.Loaded? then answer.value else [])
      ensures !loading
      ensures deletingThreadId == old(deletingThreadId) && deleteModalOpen == old(deleteModalOpen)
      ensures threadToDelete == old(threadToDelete)
    {
      loading := true;
      match answer {
        case Loaded(list) => threads := list;
        case Failed(_) => threads := [];
      }
      loading := false;
    }

    /** The delete button of a thread: open the dialog for it. */
    method DeleteClicked(t: ConversationThread)
      modifies this
      ensures threadToDelete == Some(t) && deleteModalOpen
      ensures threads == old(threads) && loading == old(loading) && deletingThreadId == old(deletingThreadId)
    {
      threadToDelete := Some(t);
      deleteModalOpen := true;
    }

    /** `handleDeleteConfirm` once the delete request settles. Without a
        pending thread nothing happens. On success the thread leaves the
        list, the dialog closes and the parent is told when it listens; on
        failure the user is alerted and the list and dialog stay. The
        deleting id is cleared in both cases. */
    method DeleteConfirm(succeeded: bool, parentListens: bool) returns (notified: bool, alerted: bool)
      modifies this
      ensures loading == old(loading)
      ensures old(threadToDelete).None? ==>
        !notified && !alerted && threads == old(threads) && deletingThreadId == old(deletingThreadId) &&
        deleteModalOpen == old(deleteModalOpen) && threadToDelete == None
      ensures old(threadToDelete).Some? && succeeded ==>
        threads == Filter(old(threads), OtherThan(old(threadToDelete).value.threadId)) &&
        !deleteModalOpen && threadToDelete == None && deletingThreadId == None &&
        notified == parentListens && !alerted
      ensures old(threadToDelete).Some? && !succeeded ==>
        threads == old(threads) && deleteModalOpen == old(deleteModalOpen) &&
        threadToDelete == old(threadToDelete) && deletingThreadId == None &&
        !notified && alerted
    {
      notified, alerted := false, false;
      if threadToDelete.None? {
        return;
      }
      var id := threadToDelete.value.threadId;
      deletingThreadId := Some(id);
      if succeeded {
        threads := Filter(threads, OtherThan(id));
        deleteModalOpen := false;
        threadToDelete := None;
        notified := parentListens;
      } else {
        alerted := true;
      }
      deletingThreadId := None;
    }

    /** `handleDeleteCancel`: close the dialog and forget the thread. */
    method DeleteCancel()
      modifies this
      ensures !deleteModalOpen && threadToDelete == None
      ensures threads == old(threads) && loading == old(loading) && deletingThreadId == old(deletingThreadId)
    {
      deleteModalOpen := false;
      threadToDelete := None;
    }
  }
}
