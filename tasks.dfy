/** The shared record types of the task manager (`src/types.ts`) and the two
    orderings every list view uses: ascending `priority`, and ascending
    strings (tags, ISO due dates). */
module Tasks {
  import opened Wrappers
  import opened Text
  import opened Seqs

  datatype Status = Open | Completed | Canceled | Waiting

  datatype Task = Task(
    taskId: string,
    title: string,
    description: Option<string>,
    dueDate: Option<string>,
    tags: Option<seq<string>>,
    status: Status,
    creationDate: string,
    modifiedDate: string,
    completedDate: Option<string>,
    userId: string,
    isMIT: bool,
    priority: int,
    position: Option<int>)

  /** `Partial<Task>` as the editors send it: every field may be absent. */
  datatype TaskPatch = TaskPatch(
    title: Option<string>,
    description: Option<string>,
    dueDate: Option<string>,
    status: Option<Status>,
    tags: Option<seq<string>>,
    isMIT: Option<bool>,
    priority: Option<int>)

  const EmptyPatch := TaskPatch(None, None, None, None, None, None, None)

  /** The two lists a task card can be moved between: the move controls'
      `ListId`, `'MIT' | 'LIT'`. */
  datatype ListId = MitList | LitList

  function OtherList(l: ListId): (o: ListId)
    ensures o != l
  {
    if l == MitList then LitList else MitList
  }

  function StatusName(s: Status): string
  {
    match s
    case Open => "Open"
    case Completed => "Completed"
    case Canceled => "Canceled"
    case Waiting => "Waiting"
  }

  /** The wire value of a status, and nothing else, parses back to it. */
  function ParseStatus(n: string): (r: Option<Status>)
    ensures r.Some? ==> StatusName(r.value) == n
  {
    if n == "Open" then Some(Open)
    else if n == "Completed" then Some(Completed)
    else if n == "Canceled" then Some(Canceled)
    else if n == "Waiting" then Some(Waiting)
    else None
  }

  /** A status is one of exactly four names, each read back as itself. */
  lemma StatusRoundTrip(s: Status)
    ensures ParseStatus(StatusName(s)) == Some(s)
  {
  }

  datatype WellnessPractice =
    Gratitude | Meditation | Kindness | SocialOutreach | NoveltyChallenge | SavoringReflection | Exercise

  function PracticeName(p: WellnessPractice): string
  {
    match p
    case Gratitude => "Gratitude"
    case Meditation => "Meditation"
    case Kindness => "Kindness"
    case SocialOutreach => "Social Outreach"
    case NoveltyChallenge => "Novelty Challenge"
    case SavoringReflection => "Savoring Reflection"
    case Exercise => "Exercise"
  }

  /** The seven practices in declaration order. */
  const AllPractices: seq<WellnessPractice> :=
    [Gratitude, Meditation, Kindness, SocialOutreach, NoveltyChallenge, SavoringReflection, Exercise]

  /** There are exactly seven practices, each listed once, with distinct names. */
  lemma PracticesEnumerated()
    ensures |AllPractices| == 7
    ensures forall p :: p in AllPractices
    ensures forall i, j :: 0 <= i < j < |AllPractices| ==>
      PracticeName(AllPractices[i]) != PracticeName(AllPractices[j])
  {
    forall p ensures p in AllPractices {
      match p
      case Gratitude => assert AllPractices[0] == p;
      case Meditation => assert AllPractices[1] == p;
      case Kindness => assert AllPractices[2] == p;
      case SocialOutreach => assert AllPractices[3] == p;
      case NoveltyChallenge => assert AllPractices[4] == p;
      case SavoringReflection => assert AllPractices[5] == p;
      case Exercise => assert AllPractices[6] == p;
    }
  }

  /** `${date}-${practice}`: the key the grid's optimistic values and the
      journal maps use for one practice on one day. */
  function PracticeKey(date: string, p: WellnessPractice): string
  {
    date + "-" + PracticeName(p)
  }

  /** On the same day, different practices have different keys. */
  lemma PracticeKeyInjective(date: string, p: WellnessPractice, q: WellnessPractice)
    ensures PracticeKey(date, p) == PracticeKey(date, q) ==> p == q
  {
    if PracticeKey(date, p) == PracticeKey(date, q) {
      var n := |date| + 1;
      assert PracticeName(p) == PracticeKey(date, p)[n..];
      assert PracticeName(q) == PracticeKey(date, q)[n..];
    }
  }

  /** `journal` is not declared on the record type, but the server sends it
      and the wellness page reads it. */
  datatype PracticeInstance = PracticeInstance(
    id: string,
    userId: string,
    date: string,
    practice: WellnessPractice,
    completed: bool,
    linkedTaskId: Option<string>,
    createdAt: string,
    completedAt: Option<string>,
    journal: Option<string>)

  datatype WeeklyWellnessScore = WeeklyWellnessScore(
    userId: string,
    weekStart: string,
    score: int,
    breakdown: map<WellnessPractice, int>,
    createdAt: string,
    updatedAt: string)

  /** The documented range of a weekly score. */
  predicate ScoreInRange(w: WeeklyWellnessScore)
  {
    0 <= w.score <= 100
  }

  // ---------------------------------------------------------------------------
  // MIT classification.

  /** A task counts towards the MIT zone when it is flagged MIT or holds one
      of the top three priorities. */
  predicate IsMitClass(t: Task)
  {
    t.isMIT || (1 <= t.priority <= 3)
  }

  /** The number of MIT places. */
  const MitCap: nat := 3

  // ---------------------------------------------------------------------------
  // Orderings.

  /** `sort((a, b) => a.priority - b.priority)`. */
  function ByPriority(): (Task, Task) -> bool
  {
    (a: Task, b: Task) => a.priority <= b.priority
  }

  function SortByPriority(ts: seq<Task>): (r: seq<Task>)
    ensures multiset(r) == multiset(ts)
  {
    SortBy(ts, ByPriority())
  }

  predicate PrioritySorted(ts: seq<Task>)
  {
    forall i, j :: 0 <= i < j < |ts| ==> ts[i].priority <= ts[j].priority
  }

  lemma ByPriorityPreorder()
    ensures TotalPreorder(ByPriority())
  {
  }

  /** The priority sort is ascending, a permutation, and stable: tasks of
      equal priority keep their relative order. */
  lemma SortByPriorityCorrect(ts: seq<Task>)
    ensures PrioritySorted(SortByPriority(ts))
    ensures multiset(SortByPriority(ts)) == multiset(ts)
    ensures forall t :: Block(SortByPriority(ts), t, ByPriority()) == Block(ts, t, ByPriority())
  {
    ByPriorityPreorder();
    SortBySorted(ts, ByPriority());
    var r := SortByPriority(ts);
    assert Sorted(r, ByPriority());
    forall i, j | 0 <= i < j < |r| ensures r[i].priority <= r[j].priority {
      assert ByPriority()(r[i], r[j]);
    }
    forall t ensures Block(r, t, ByPriority()) == Block(ts, t, ByPriority()) {
      SortByStable(ts, t, ByPriority());
    }
  }

  /** The first n tasks of a priority-sorted list are the least: whatever
      is left out has a priority no smaller than any kept. */
  lemma PrefixLeast(s: seq<Task>, n: nat)
    requires PrioritySorted(s)
    ensures forall t, u :: t in Take(s, n) && u in multiset(s) - multiset(Take(s, n)) ==> t.priority <= u.priority
  {
    var r, rest := Take(s, n), Drop(s, n);
    assert s == r + rest;
    assert multiset(s) == multiset(r) + multiset(rest);
    forall t, u | t in r && u in multiset(s) - multiset(r) ensures t.priority <= u.priority {
      assert u in multiset(rest);
      var i :| 0 <= i < |r| && r[i] == t;
      var j :| 0 <= j < |rest| && rest[j] == u;
      assert s[i] == t && s[|r| + j] == u;
    }
  }

  /** The first n tasks of a priority-sorted list are sorted and drawn
      from it. */
  lemma PrefixSorted(s: seq<Task>, n: nat)
    requires PrioritySorted(s)
    ensures PrioritySorted(Take(s, n)) && multiset(Take(s, n)) <= multiset(s)
    ensures forall t :: t in Take(s, n) ==> t in s
  {
    var r, rest := Take(s, n), Drop(s, n);
    assert s == r + rest;
    assert multiset(s) == multiset(r) + multiset(rest);
    forall i, j | 0 <= i < j < |r| ensures r[i].priority <= r[j].priority {
      assert r[i] == s[i] && r[j] == s[j];
    }
    forall t | t in r ensures t in s {
      var i :| 0 <= i < |r| && r[i] == t;
      assert s[i] == t;
    }
  }

  /** Code-point (scalar-value) string order, used for `sort()` on strings and for
      `localeCompare` on ISO day strings. */
  function ByString(): (string, string) -> bool
  {
    (a: string, b: string) => StrLessEq(a, b)
  }

  lemma ByStringPreorder()
    ensures TotalPreorder(ByString())
  {
    forall a, b ensures ByString()(a, b) || ByString()(b, a) {
      StrLessTrichotomy(a, b);
    }
    forall a, b, c | ByString()(a, b) && ByString()(b, c) ensures ByString()(a, c) {
      if a != b && b != c { StrLessTransitive(a, b, c); }
    }
  }

  predicate StringsSorted(s: seq<string>)
  {
    forall i, j :: 0 <= i < j < |s| ==> StrLessEq(s[i], s[j])
  }

  /** `[...s].sort()` on strings. */
  function SortStrings(s: seq<string>): (r: seq<string>)
    ensures multiset(r) == multiset(s)
  {
    SortBy(s, ByString())
  }

  lemma SortStringsCorrect(s: seq<string>)
    ensures StringsSorted(SortStrings(s))
    ensures multiset(SortStrings(s)) == multiset(s)
  {
    ByStringPreorder();
    SortBySorted(s, ByString());
    var r := SortStrings(s);
    forall i, j | 0 <= i < j < |r| ensures StrLessEq(r[i], r[j]) {
      assert ByString()(r[i], r[j]);
    }
  }

  /** The due-date string of a task, "" when it has none. */
  function DueOf(t: Task): string
  {
    t.dueDate.GetOr("")
  }

  /** `sort((a, b) => a.dueDate!.localeCompare(b.dueDate!))`. */
  function ByDueDate(): (Task, Task) -> bool
  {
    (a: Task, b: Task) => StrLessEq(DueOf(a), DueOf(b))
  }

  function SortByDueDate(ts: seq<Task>): (r: seq<Task>)
    ensures multiset(r) == multiset(ts)
  {
    SortBy(ts, ByDueDate())
  }

  predicate DueSorted(ts: seq<Task>)
  {
    forall i, j :: 0 <= i < j < |ts| ==> StrLessEq(DueOf(ts[i]), DueOf(ts[j]))
  }

  lemma SortByDueDateCorrect(ts: seq<Task>)
    ensures DueSorted(SortByDueDate(ts))
    ensures multiset(SortByDueDate(ts)) == multiset(ts)
  {
    forall a, b ensures ByDueDate()(a, b) || ByDueDate()(b, a) {
      StrLessTrichotomy(DueOf(a), DueOf(b));
    }
    forall a, b, c | ByDueDate()(a, b) && ByDueDate()(b, c) ensures ByDueDate()(a, c) {
      if DueOf(a) != DueOf(b) && DueOf(b) != DueOf(c) { StrLessTransitive(DueOf(a), DueOf(b), DueOf(c)); }
    }
    SortBySorted(ts, ByDueDate());
    var r := SortByDueDate(ts);
    forall i, j | 0 <= i < j < |r| ensures StrLessEq(DueOf(r[i]), DueOf(r[j])) {
      assert ByDueDate()(r[i], r[j]);
    }
  }
}
