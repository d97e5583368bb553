/** The task board (`src/pages/tasks-page.tsx`): the two drop zones, the
    drag-and-drop reorder that renumbers every priority, the status and tag
    filter toggles, the three-MIT check on save, and the MIT/LIT lists it
    renders. Server calls are inputs: the task the server returns and
    whether a batch of updates was saved. */
module TasksPage {
  import opened Wrappers
  import opened Seqs
  import opened Tasks

  datatype Container = MitZone | LitZone

  const MitZoneId := "mit-zone"
  const LitZoneId := "lit-zone"

  predicate IsZoneId(id: string)
  {
    id == MitZoneId || id == LitZoneId
  }

  function HasTaskId(id: string): Task -> bool
  {
    (t: Task) => t.taskId == id
  }

  /** `tasks.findIndex(t => t.TaskId === id)`. */
  function FindTask(ts: seq<Task>, id: string): (r: int)
    ensures -1 <= r < |ts|
    ensures r >= 0 ==> ts[r].taskId == id && forall i :: 0 <= i < r ==> ts[i].taskId != id
    ensures r < 0 ==> forall i :: 0 <= i < |ts| ==> ts[i].taskId != id
  {
    IndexWhere(ts, HasTaskId(id))
  }

  /** `findContainer(id)`: the zone of the task with that id, decided by
      `isMIT` alone; else the zone the id names; else none. */
  function FindContainer(ts: seq<Task>, id: string): (r: Option<Container>)
    ensures FindTask(ts, id) >= 0 ==> r == Some(if ts[FindTask(ts, id)].isMIT then MitZone else LitZone)
    ensures FindTask(ts, id) < 0 ==>
      (r == Some(MitZone) <==> id == MitZoneId) && (r == Some(LitZone) <==> id == LitZoneId)
  {
    var k := FindTask(ts, id);
    if k >= 0 then Some(if ts[k].isMIT then MitZone else LitZone)
    else if id == MitZoneId then Some(MitZone)
    else if id == LitZoneId then Some(LitZone)
    else None
  }

  // ---------------------------------------------------------------------------
  // handleDragEnd

  /** What a drop does to the list before renumbering: nothing, a refusal by
      the MIT rules, or the rearranged list. */
  datatype Drop = Ignore | Refuse | Accept(arranged: seq<Task>)

  /** The tasks other than `id` that already count towards the MIT zone. */
  function MitClassOthers(ts: seq<Task>, id: string): nat
  {
    |Filter(ts, (t: Task) => IsMitClass(t) && t.taskId != id)|
  }

  function IsLitClass(): Task -> bool
  {
    t => !IsMitClass(t)
  }

  /** The rearrangement `handleDragEnd` makes for a drag of `activeId` that
      ended over `overId` (absent: dropped nowhere). */
  function Arrange(ts: seq<Task>, activeId: string, overId: Option<string>): Drop
  {
    if overId.None? || activeId == overId.value then Ignore
    else
      var over := overId.value;
      var ac, oc := FindContainer(ts, activeId), FindContainer(ts, over);
      var k := FindTask(ts, activeId);
      if ac.None? || oc.None? || k < 0 then Ignore
      else if ac == oc then
        var j := FindTask(ts, over);
        if j < 0 then Accept(ts) else Accept(ArrayMove(ts, k, j))
      else if oc.value == LitZone && 0 < ts[k].priority <= 3 then Refuse
      else if oc.value == MitZone && MitClassOthers(ts, activeId) >= MitCap then Refuse
      else
        var moved := ts[k].(isMIT := oc.value == MitZone);
        var rest := Remove(ts, k);
        var j := FindTask(rest, over);
        if !IsZoneId(over) && j >= 0 then Accept(Insert(rest, j, moved))
        else if oc.value == MitZone && IndexWhere(rest, IsLitClass()) >= 0 then
          Accept(Insert(rest, IndexWhere(rest, IsLitClass()), moved))
        else Accept(rest + [moved])
  }

  /** `newTasks.map((task, index) => ({ ...task, priority: index + 1 }))`. */
  function Renumber(ts: seq<Task>): (r: seq<Task>)
    ensures |r| == |ts| && Ids(r) == Ids(ts)
    ensures forall i :: 0 <= i < |r| ==> r[i].priority == i + 1
    ensures forall i :: 0 <= i < |r| ==> r[i].(priority := ts[i].priority) == ts[i]
  {
    seq(|ts|, i requires 0 <= i < |ts| => ts[i].(priority := i + 1))
  }

  function Ids(ts: seq<Task>): (r: seq<string>)
    ensures |r| == |ts|
  {
    seq(|ts|, i requires 0 <= i < |ts| => ts[i].taskId)
  }

  /** The request that persists one task's new place. */
  datatype PlaceUpdate = PlaceUpdate(taskId: string, priority: int, isMIT: bool)

  /** A task needs saving unless the original list holds it with the same
      priority and MIT flag. */
  predicate Changed(original: seq<Task>, t: Task)
  {
    var k := FindTask(original, t.taskId);
    k < 0 || original[k].priority != t.priority || original[k].isMIT != t.isMIT
  }

  function Updates(original: seq<Task>, updated: seq<Task>): (r: seq<PlaceUpdate>)
    ensures |r| <= |updated|
    ensures forall u :: u in r ==>
      exists t :: t in updated && Changed(original, t) && u == PlaceUpdate(t.taskId, t.priority, t.isMIT)
    ensures (forall t :: t in updated ==> !Changed(original, t)) ==> r == []
    ensures forall t :: t in updated && Changed(original, t) ==> PlaceOf(t) in r
    decreases |updated|
  {
    if |updated| == 0 then []
    else
      var t := updated[0];
      assert forall x :: x in updated[1..] ==> x in updated;
      (if Changed(original, t) then [PlaceUpdate(t.taskId, t.priority, t.isMIT)] else [])
        + Updates(original, updated[1..])
  }

  function PlaceOf(t: Task): PlaceUpdate
  {
    PlaceUpdate(t.taskId, t.priority, t.isMIT)
  }

  function ChangedIn(original: seq<Task>): Task -> bool
  {
    t => Changed(original, t)
  }

  /** `.map(...)` of each task to its request, in order. */
  function Places(ts: seq<Task>): (r: seq<PlaceUpdate>)
    ensures |r| == |ts| && forall i :: 0 <= i < |ts| ==> r[i] == PlaceOf(ts[i])
    decreases |ts|
  {
    if |ts| == 0 then [] else [PlaceOf(ts[0])] + Places(ts[1..])
  }

  /** The requests go out one per changed task, in list order: the updates
      are the changed tasks of `updated`, filtered in order, each mapped to
      its new place. */
  lemma {:induction false} UpdatesInOrder(original: seq<Task>, updated: seq<Task>)
    ensures Updates(original, updated) == Places(Filter(updated, ChangedIn(original)))
    decreases |updated|
  {
    if |updated| > 0 {
      var t := updated[0];
      var rest := Filter(updated[1..], ChangedIn(original));
      UpdatesInOrder(original, updated[1..]);
      if Changed(original, t) {
        assert Filter(updated, ChangedIn(original)) == [t] + rest;
        assert ([t] + rest)[1..] == rest;
      } else {
        assert Filter(updated, ChangedIn(original)) == rest;
      }
    }
  }

  // ---------------------------------------------------------------------------
  // The filters.

  /** Adds an absent value at the end, removes every copy of a present one. */
  function Toggle<T(==, !new)>(s: seq<T>, v: T): (r: seq<T>)
  {
    if v in s then Filter(s, x => x != v) else s + [v]
  }

  /** After a toggle the value is present exactly when it was absent before;
      every other value keeps its presence. */
  lemma ToggleMembers<T(!new)>(s: seq<T>, v: T)
    ensures v in Toggle(s, v) <==> v !in s
    ensures forall x :: x != v ==> (x in Toggle(s, v) <==> x in s)
  {
    FilterMembers(s, x => x != v);
  }

  /** Toggling twice restores the filter: exactly when the value was absent,
      and as a set of values when it was present (it comes back at the end). */
  lemma {:induction false} ToggleTwice<T(!new)>(s: seq<T>, v: T)
    ensures v !in s ==> Toggle(Toggle(s, v), v) == s
    ensures forall x :: x in Toggle(Toggle(s, v), v) <==> x in s
  {
    ToggleMembers(s, v);
    ToggleMembers(Toggle(s, v), v);
    if v !in s {
      var t := s + [v];
      assert v in t;
      FilterMembers(t, x => x != v);
      FilterAppend(s, [v], x => x != v);
      FilterAll(s, x => x != v);
      FilterSingle(v, x => x != v);
    }
  }

  // ---------------------------------------------------------------------------
  // The rendered lists.

  /** Tasks without an id are never rendered. */
  predicate Renderable(t: Task)
  {
    t.taskId != ""
  }

  function MitTasks(ts: seq<Task>): seq<Task>
  {
    Filter(SortByPriority(Filter(ts, IsMitClass)), Renderable)
  }

  function LitTasks(ts: seq<Task>): seq<Task>
  {
    Filter(SortByPriority(Filter(ts, IsLitClass())), Renderable)
  }

  /** How often the list built with class test c holds x. */
  lemma ListCount(ts: seq<Task>, c: Task -> bool, x: Task)
    ensures multiset(Filter(SortByPriority(Filter(ts, c)), Renderable))[x] ==
      if Renderable(x) && c(x) then multiset(ts)[x] else 0
  {
    FilterCount(SortByPriority(Filter(ts, c)), Renderable, x);
    FilterCount(ts, c, x);
  }

  /** The list built with class test c holds only renderable tasks passing
      c, in ascending priority. */
  lemma ListShape(ts: seq<Task>, c: Task -> bool)
    ensures var r := Filter(SortByPriority(Filter(ts, c)), Renderable);
      (forall t :: t in r ==> c(t) && Renderable(t)) && PrioritySorted(r)
  {
    var m := SortByPriority(Filter(ts, c));
    var r := Filter(m, Renderable);
    forall t | t in r ensures c(t) && Renderable(t) {
      FilterMembers(m, Renderable);
      assert t in multiset(m);
      FilterMembers(ts, c);
    }
    ByPriorityPreorder();
    SortBySorted(Filter(ts, c), ByPriority());
    FilterSorted(m, Renderable, ByPriority());
    forall i, j | 0 <= i < j < |r| ensures r[i].priority <= r[j].priority {
      assert ByPriority()(r[i], r[j]);
    }
  }

  /** The two lists split the renderable tasks between them with nothing
      lost or doubled, each sorted by priority, MIT-class tasks on one side
      and the rest on the other. */
  lemma MitLitPartition(ts: seq<Task>)
    ensures multiset(MitTasks(ts)) + multiset(LitTasks(ts)) == multiset(Filter(ts, Renderable))
    ensures forall t :: t in MitTasks(ts) ==> IsMitClass(t) && Renderable(t)
    ensures forall t :: t in LitTasks(ts) ==> !IsMitClass(t) && Renderable(t)
    ensures PrioritySorted(MitTasks(ts)) && PrioritySorted(LitTasks(ts))
  {
    ListsSplit(ts);
    ListShape(ts, IsMitClass);
    ListShape(ts, IsLitClass());
  }

  lemma ListsSplit(ts: seq<Task>)
    ensures multiset(MitTasks(ts)) + multiset(LitTasks(ts)) == multiset(Filter(ts, Renderable))
  {
    var a, b, c := multiset(MitTasks(ts)), multiset(LitTasks(ts)), multiset(Filter(ts, Renderable));
    forall x ensures (a + b)[x] == c[x] {
      ListCount(ts, IsMitClass, x);
      ListCount(ts, IsLitClass(), x);
      FilterCount(ts, Renderable, x);
    }
    assert a + b == c;
  }

  /** The zones disagree with the lists: a task not flagged MIT but with
      priority 2 is drawn in the MIT list, yet `findContainer` places it in
      the LIT zone. */
  lemma ContainerIgnoresPriority(t: Task)
    requires !t.isMIT && t.priority == 2 && t.taskId != "" && !IsZoneId(t.taskId)
    ensures t in MitTasks([t])
    ensures FindContainer([t], t.taskId) == Some(LitZone)
  {
    ListCount([t], IsMitClass, t);
    assert t in multiset(MitTasks([t]));
  }

  // ---------------------------------------------------------------------------
  // Properties of a drop.

  /** A drop nowhere, onto the dragged task itself, onto an unknown id, or of
      a task not in the list changes nothing. */
  lemma DropIgnored(ts: seq<Task>, activeId: string, overId: Option<string>)
    ensures overId.None? ==> Arrange(ts, activeId, overId) == Ignore
    ensures overId == Some(activeId) ==> Arrange(ts, activeId, overId) == Ignore
    ensures FindTask(ts, activeId) < 0 ==> Arrange(ts, activeId, overId) == Ignore
    ensures overId.Some? && FindTask(ts, overId.value) < 0 && !IsZoneId(overId.value) ==>
      Arrange(ts, activeId, overId) == Ignore
  {
  }

  /** A move across zones is refused exactly by the two MIT rules: a task of
      priority 1..3 may not leave for the LIT zone, and the MIT zone takes no
      task while three others already count towards it. */
  lemma DropRefusal(ts: seq<Task>, activeId: string, over: string)
    requires var k := FindTask(ts, activeId);
      k >= 0 && activeId != over && FindContainer(ts, over).Some? &&
      FindContainer(ts, over) != FindContainer(ts, activeId)
    ensures var k := FindTask(ts, activeId);
      var target := FindContainer(ts, over).value;
      Arrange(ts, activeId, Some(over)) == Refuse <==>
        (target == LitZone && 1 <= ts[k].priority <= 3) ||
        (target == MitZone && MitClassOthers(ts, activeId) >= 3)
  {
  }

  /** A drop moves exactly one task: the dragged task sits at one place of
      the new list, everything else keeps its relative order, and only a
      move across zones changes the task, setting its MIT flag to the
      target zone. */
  lemma DropMovesOne(ts: seq<Task>, activeId: string, overId: Option<string>)
    requires Arrange(ts, activeId, overId).Accept?
    ensures var arr := Arrange(ts, activeId, overId).arranged;
      var k := FindTask(ts, activeId);
      var target := FindContainer(ts, overId.value).value;
      0 <= k < |ts| && |arr| == |ts| &&
      exists p :: 0 <= p < |arr| && Remove(arr, p) == Remove(ts, k) &&
        arr[p] == ts[k].(isMIT := target == MitZone)
  {
    var k := FindTask(ts, activeId);
    if FindContainer(ts, activeId) == FindContainer(ts, overId.value) {
      SameZoneMovesOne(ts, activeId, overId.value);
    } else {
      OtherZoneMovesOne(ts, activeId, overId.value);
    }
  }

  lemma SameZoneMovesOne(ts: seq<Task>, activeId: string, over: string)
    requires Arrange(ts, activeId, Some(over)).Accept?
    requires FindContainer(ts, activeId) == FindContainer(ts, over)
    ensures var arr := Arrange(ts, activeId, Some(over)).arranged;
      var k := FindTask(ts, activeId);
      0 <= k < |ts| && |arr| == |ts| &&
      exists p :: 0 <= p < |arr| && Remove(arr, p) == Remove(ts, k) && arr[p] == ts[k]
  {
    var arr := Arrange(ts, activeId, Some(over)).arranged;
    var k := FindTask(ts, activeId);
    var rest := Remove(ts, k);
    var j := FindTask(ts, over);
    if j < 0 {
      assert Remove(arr, k) == Remove(ts, k);
    } else {
      InsertRemove(rest, j, ts[k]);
      assert Remove(arr, j) == rest;
    }
  }

  lemma OtherZoneMovesOne(ts: seq<Task>, activeId: string, over: string)
    requires Arrange(ts, activeId, Some(over)).Accept?
    requires FindContainer(ts, activeId) != FindContainer(ts, over)
    ensures var arr := Arrange(ts, activeId, Some(over)).arranged;
      var k := FindTask(ts, activeId);
      var target := FindContainer(ts, over).value;
      0 <= k < |ts| && |arr| == |ts| &&
      exists p :: 0 <= p < |arr| && Remove(arr, p) == Remove(ts, k) &&
        arr[p] == ts[k].(isMIT := target == MitZone)
  {
    var arr := Arrange(ts, activeId, Some(over)).arranged;
    var k := FindTask(ts, activeId);
    var target := FindContainer(ts, over).value;
    var rest := Remove(ts, k);
    var moved := ts[k].(isMIT := target == MitZone);
    var j := FindTask(rest, over);
    var f := IndexWhere(rest, IsLitClass());
    assert 0 <= k < |ts| && FindContainer(ts, over).Some?;
    if !IsZoneId(over) && j >= 0 {
      assert arr == Insert(rest, j, moved);
      InsertRemove(rest, j, moved);
    } else if target == MitZone && f >= 0 {
      assert arr == Insert(rest, f, moved);
      InsertRemove(rest, f, moved);
    } else {
      assert arr == rest + [moved] == Insert(rest, |rest|, moved);
      InsertRemove(rest, |rest|, moved);
    }
  }

  /** Renumbering gives priorities exactly 1..n in list order, and a drop
      keeps the same multiset of task ids. */
  lemma DropRenumbers(ts: seq<Task>, activeId: string, overId: Option<string>)
    requires Arrange(ts, activeId, overId).Accept?
    ensures var r := Renumber(Arrange(ts, activeId, overId).arranged);
      |r| == |ts| &&
      (forall i :: 0 <= i < |r| ==> r[i].priority == i + 1) &&
      multiset(Ids(r)) == multiset(Ids(ts))
  {
    var arr := Arrange(ts, activeId, overId).arranged;
    DropMovesOne(ts, activeId, overId);
    var k := FindTask(ts, activeId);
    var target := FindContainer(ts, overId.value).value;
    var p :| 0 <= p < |arr| && Remove(arr, p) == Remove(ts, k) && arr[p] == ts[k].(isMIT := target == MitZone);
    assert Ids(Renumber(arr)) == Ids(arr);
    IdsRemove(arr, p);
    IdsRemove(ts, k);
  }

  lemma IdsRemove(s: seq<Task>, i: nat)
    requires i < |s|
    ensures multiset(Ids(s)) == multiset(Ids(Remove(s, i))) + multiset{s[i].taskId}
  {
    RemoveMultiset(Ids(s), i);
    assert Remove(Ids(s), i) == Ids(Remove(s, i));
  }

  /** Dropped onto the MIT zone itself, the task goes in front of the first
      LIT-class task, so every task before it counts towards the MIT zone. */
  lemma MitZoneDropPlacement(ts: seq<Task>, activeId: string)
    requires Arrange(ts, activeId, Some(MitZoneId)).Accept?
    requires FindTask(ts, MitZoneId) < 0
    requires FindContainer(ts, activeId) == Some(LitZone)
    ensures var arr := Arrange(ts, activeId, Some(MitZoneId)).arranged;
      exists p :: 0 <= p < |arr| && arr[p].isMIT &&
        (forall i :: 0 <= i < p ==> IsMitClass(arr[i])) &&
        (p + 1 < |arr| ==> !IsMitClass(arr[p + 1]))
  {
    var arr := Arrange(ts, activeId, Some(MitZoneId)).arranged;
    var k := FindTask(ts, activeId);
    var rest := Remove(ts, k);
    var moved := ts[k].(isMIT := true);
    var f := IndexWhere(rest, IsLitClass());
    if f >= 0 {
      assert arr == Insert(rest, f, moved);
      assert arr[f] == moved;
      assert forall i :: 0 <= i < f ==> arr[i] == rest[i];
      assert arr[f + 1] == rest[f];
    } else {
      assert arr == rest + [moved];
      assert arr[|rest|] == moved;
    }
  }

  // ---------------------------------------------------------------------------
  // handleSaveTask

  /** `taskData.isMIT || (taskData.priority !== undefined && taskData.priority <= 3)`. */
  predicate WillBeMit(data: TaskPatch)
  {
    (data.isMIT.Some? && data.isMIT.value) || (data.priority.Some? && data.priority.value <= 3)
  }

  /** The MIT flags the check counts: every flagged task but the one edited. */
  function FlaggedMitCount(ts: seq<Task>, editing: Option<Task>): nat
  {
    if editing.Some? then |Filter(ts, (t: Task) => t.isMIT && t.taskId != editing.value.taskId)|
    else |Filter(ts, (t: Task) => t.isMIT)|
  }

  /** `tasks.map(t => t.TaskId === id ? { ...t, ...saved } : t)`. */
  function ReplaceTask(ts: seq<Task>, id: string, saved: Task): (r: seq<Task>)
    ensures |r| == |ts|
    ensures forall i :: 0 <= i < |ts| ==> r[i] == if ts[i].taskId == id then saved else ts[i]
  {
    seq(|ts|, i requires 0 <= i < |ts| => if ts[i].taskId == id then saved else ts[i])
  }

  /** The splice work of `handleDragEnd` on a copy of the list, step by
      step: a drop on nothing or on itself, or of an unknown task, is
      ignored; a move into a zone the task may not enter is refused. */
  method SpliceDrop(tasks: seq<Task>, dragged: string, overId: Option<string>) returns (d: Drop)
    ensures d == Arrange(tasks, dragged, overId)
  {
    if overId.None? { return Ignore; }
    var over := overId.value;
    if dragged == over { return Ignore; }
    var activeContainer := FindContainer(tasks, dragged);
    var overContainer := FindContainer(tasks, over);
    if activeContainer.None? || overContainer.None? { return Ignore; }
    var newTasks := tasks;
    var k := FindTask(newTasks, dragged);
    if k == -1 { return Ignore; }
    if activeContainer == overContainer {
      var j := FindTask(newTasks, over);
      if j != -1 {
        newTasks := ArrayMove(newTasks, k, j);
      }
    } else {
      if overContainer.value == LitZone && 0 < tasks[k].priority <= 3 {
        return Refuse;
      }
      var activeTask := newTasks[k];
      if overContainer.value == MitZone && MitClassOthers(newTasks, dragged) >= 3 {
        return Refuse;
      }
      activeTask := activeTask.(isMIT := overContainer.value == MitZone);
      newTasks := Remove(newTasks, k);
      var j := FindTask(newTasks, over);
      if !IsZoneId(over) && j != -1 {
        newTasks := Insert(newTasks, j, activeTask);
      } else if overContainer.value == MitZone {
        var firstLit := IndexWhere(newTasks, IsLitClass());
        if firstLit != -1 {
          newTasks := Insert(newTasks, firstLit, activeTask);
        } else {
          newTasks := newTasks + [activeTask];
        }
      } else {
        newTasks := newTasks + [activeTask];
      }
    }
    d := Accept(newTasks);
  }

  /** The page's state. */
  class TasksBoard {
    var tasks: seq<Task>
    var statusFilter: seq<Status>
    var tagFilter: seq<string>
    var activeId: Option<string>
    var selectedTask: Option<Task>
    var editModalOpen: bool

    constructor ()
      ensures tasks == [] && statusFilter == [Open, Waiting] && tagFilter == []
      ensures activeId == None && selectedTask == None && !editModalOpen
    {
      tasks := [];
      statusFilter := [Open, Waiting];
      tagFilter := [];
      activeId := None;
      selectedTask := None;
      editModalOpen := false;
    }

    method HandleDragStart(id: string)
      modifies this
      ensures activeId == Some(id)
      ensures tasks == old(tasks) && selectedTask == old(selectedTask) && editModalOpen == old(editModalOpen)
      ensures statusFilter == old(statusFilter) && tagFilter == old(tagFilter)
    {
      activeId := Some(id);
    }

    /** `handleDragEnd`: rearranges a copy of the list with `splice`, shows
        it renumbered, and sends one update per task whose place changed;
        `saved` says whether all of those updates succeeded, and when one
        failed the original list comes back. */
    method HandleDragEnd(dragged: string, overId: Option<string>, saved: bool) returns (sent: seq<PlaceUpdate>)
      modifies this`activeId, this`tasks
      ensures activeId == None
      ensures Arrange(old(tasks), dragged, overId).Accept? ==>
        var r := Renumber(Arrange(old(tasks), dragged, overId).arranged);
        sent == Updates(old(tasks), r) &&
        tasks == (if saved || sent == [] then r else old(tasks))
      ensures !Arrange(old(tasks), dragged, overId).Accept? ==> sent == [] && tasks == old(tasks)
    {
      activeId := None;
      sent := [];
      var original := tasks;
      var drop := SpliceDrop(original, dragged, overId);
      if drop.Accept? {
        var updated := Renumber(drop.arranged);
        tasks := updated;
        sent := Updates(original, updated);
        if |sent| > 0 && !saved {
          tasks := original;
        }
      }
    }

    method HandleStatusFilterChange(s: Status)
      modifies this
      ensures statusFilter == Toggle(old(statusFilter), s)
      ensures tasks == old(tasks) && tagFilter == old(tagFilter) && activeId == old(activeId)
      ensures selectedTask == old(selectedTask) && editModalOpen == old(editModalOpen)
    {
      statusFilter := Toggle(statusFilter, s);
    }

    method HandleTagFilterChange(tag: string)
      modifies this
      ensures tagFilter == Toggle(old(tagFilter), tag)
      ensures tasks == old(tasks) && statusFilter == old(statusFilter) && activeId == old(activeId)
      ensures selectedTask == old(selectedTask) && editModalOpen == old(editModalOpen)
    {
      tagFilter := Toggle(tagFilter, tag);
    }

    /** `handleCardClick`: opens the editor on the first task with the id. */
    method HandleCardClick(id: string)
      modifies this
      ensures FindTask(old(tasks), id) >= 0 ==>
        selectedTask == Some(old(tasks)[FindTask(old(tasks), id)]) && editModalOpen
      ensures FindTask(old(tasks), id) < 0 ==>
        selectedTask == old(selectedTask) && editModalOpen == old(editModalOpen)
      ensures tasks == old(tasks) && statusFilter == old(statusFilter) && tagFilter == old(tagFilter)
      ensures activeId == old(activeId)
    {
      var k := FindTask(tasks, id);
      if k >= 0 {
        selectedTask := Some(tasks[k]);
        editModalOpen := true;
      }
    }

    method HandleCreateClick()
      modifies this
      ensures selectedTask == None && editModalOpen
      ensures tasks == old(tasks) && statusFilter == old(statusFilter) && tagFilter == old(tagFilter)
      ensures activeId == old(activeId)
    {
      selectedTask := None;
      editModalOpen := true;
    }

    /** `handleSaveTask` after the server answered with `saved`: the MIT
        check runs only now, so a refusal leaves the editor open and the
        list as it was, though the server already holds the change. */
    method HandleSaveTask(data: TaskPatch, saved: Task) returns (applied: bool)
      modifies this
      ensures applied <==> !(WillBeMit(data) && FlaggedMitCount(old(tasks), old(selectedTask)) >= 3)
      ensures !applied ==>
        tasks == old(tasks) && selectedTask == old(selectedTask) && editModalOpen == old(editModalOpen)
      ensures applied && old(selectedTask).Some? ==>
        tasks == ReplaceTask(old(tasks), old(selectedTask).value.taskId, saved)
      ensures applied && old(selectedTask).None? ==> tasks == old(tasks) + [saved]
      ensures applied ==> selectedTask == None && !editModalOpen
      ensures statusFilter == old(statusFilter) && tagFilter == old(tagFilter) && activeId == old(activeId)
    {
      var count := FlaggedMitCount(tasks, selectedTask);
      if WillBeMit(data) && count >= 3 {
        return false;
      }
      if selectedTask.Some? {
        tasks := ReplaceTask(tasks, selectedTask.value.taskId, saved);
      } else {
        tasks := tasks + [saved];
      }
      editModalOpen := false;
      selectedTask := None;
      applied := true;
    }
  }

  /** The save check counts flags only: with three flagged tasks a priority
      4 edit that stays unflagged passes, a priority 0 one is refused. */
  lemma SaveCheckExamples(ts: seq<Task>)
    requires |Filter(ts, (t: Task) => t.isMIT)| == 3
    ensures !WillBeMit(EmptyPatch.(isMIT := Some(false), priority := Some(4)))
    ensures WillBeMit(EmptyPatch.(priority := Some(0))) && FlaggedMitCount(ts, None) >= 3
  {
  }
}
