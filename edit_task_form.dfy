/** The task form inside the task dialogs (`src/components/edit-task-form.tsx`):
    the fields it edits, the list it puts the task in, its priority input
    with the MIT and LIT bounds, and the record it saves. Typed numbers
    arrive as the result of `parseInt`: `None` stands for `NaN`. */
module EditTaskForm {
  import opened Wrappers
  import opened Text
  import opened CivilDate
  import opened Tasks
  import opened Validation

  // ---------------------------------------------------------------------------
  // Priority.

  /** `parseInt(value) || 1`: `NaN` and 0 are falsy and become 1. */
  function TypedNumber(v: Option<int>): (n: int)
    ensures v.None? || v == Some(0) ==> n == 1
    ensures v.Some? && v.value != 0 ==> n == v.value
  {
    if v.None? || v.value == 0 then 1 else v.value
  }

  /** `maxPriority`: three places in the MIT list, at least ten (and one
      more than its tasks) in the LIT list. */
  function MaxPriority(list: ListId, litTaskCount: int): (m: int)
    ensures list == MitList ==> m == 3
    ensures list == LitList ==> m >= 10 && m >= litTaskCount + 1 && (m == 10 || m == litTaskCount + 1)
  {
    if list == MitList then 3 else if litTaskCount + 1 > 10 then litTaskCount + 1 else 10
  }

  /** `handlePriorityChange`: a priority is never below 1. */
  function FlooredPriority(p: int): (r: int)
    ensures r >= 1 && r >= p && (p >= 1 ==> r == p)
  {
    if p > 1 then p else 1
  }

  /** Typing into the priority input: floored at 1, no upper bound yet. */
  function TypedPriority(v: Option<int>): (r: int)
    ensures r >= 1
    ensures v.Some? && v.value >= 1 ==> r == v.value
    ensures !(v.Some? && v.value >= 1) ==> r == 1
  {
    FlooredPriority(TypedNumber(v))
  }

  /** Leaving the priority input: clamped to `[1, maxPriority]`. */
  function BlurredPriority(v: Option<int>, maxPriority: int): (r: int)
    requires maxPriority >= 1
    ensures 1 <= r <= maxPriority
    ensures v.Some? && 1 <= v.value <= maxPriority ==> r == v.value
    ensures v.Some? && v.value > maxPriority ==> r == maxPriority
    ensures !(v.Some? && v.value >= 1) ==> r == 1
  {
    var n := TypedNumber(v);
    FlooredPriority(if n < maxPriority then n else maxPriority)
  }

  /** A blurred priority typed again stays as it is. */
  lemma BlurIdempotent(v: Option<int>, maxPriority: int)
    requires maxPriority >= 1
    ensures BlurredPriority(Some(BlurredPriority(v, maxPriority)), maxPriority) == BlurredPriority(v, maxPriority)
  {
  }

  // ---------------------------------------------------------------------------
  // Validation.

  function TitleOf(current: TaskPatch): string { current.title.GetOr("") }
  function DescriptionOf(current: TaskPatch): string { current.description.GetOr("") }

  /** Either text field is over its limit. */
  predicate OverLimit(current: TaskPatch)
  {
    ValidateTaskField(Title, TitleOf(current)).isOverLimit ||
    ValidateTaskField(Description, DescriptionOf(current)).isOverLimit
  }

  /** The Save button is disabled past either limit and for a blank title. */
  function SaveDisabled(current: TaskPatch): (d: bool)
    ensures d <==> (Utf16Length(TitleOf(current)) > 200 || Utf16Length(DescriptionOf(current)) > 5000 ||
                    IsBlank(TitleOf(current)))
  {
    TrimEmptyIffBlank(TitleOf(current));
    OverLimit(current) || Trim(TitleOf(current)) == ""
  }

  /** The "MIT is full" hint: the MIT list chosen while it holds three
      tasks, a priority within it, and a task that is not already a MIT. */
  predicate MitFullWarning(list: ListId, mitTaskCount: int, priority: int, task: Option<Task>)
  {
    list == MitList && mitTaskCount >= 3 && priority <= 3 && (task.None? || !task.value.isMIT)
  }

  /** Editing a MIT never warns, and neither does the LIT list. */
  lemma NoWarningForMitOrLit(mitTaskCount: int, priority: int, task: Option<Task>)
    ensures !MitFullWarning(LitList, mitTaskCount, priority, task)
    ensures task.Some? && task.value.isMIT ==> !MitFullWarning(MitList, mitTaskCount, priority, task)
  {
  }

  // ---------------------------------------------------------------------------
  // Loading.

  /** `{ ...baseTask, ...defaultValues }`: a field given in the defaults wins. */
  function Merge(base: TaskPatch, defaults: TaskPatch): (r: TaskPatch)
    ensures r.title == (if defaults.title.Some? then defaults.title else base.title)
    ensures r.description == (if defaults.description.Some? then defaults.description else base.description)
    ensures r.dueDate == (if defaults.dueDate.Some? then defaults.dueDate else base.dueDate)
    ensures r.status == (if defaults.status.Some? then defaults.status else base.status)
    ensures r.tags == (if defaults.tags.Some? then defaults.tags else base.tags)
    ensures r.isMIT == (if defaults.isMIT.Some? then defaults.isMIT else base.isMIT)
    ensures r.priority == (if defaults.priority.Some? then defaults.priority else base.priority)
  {
    TaskPatch(
      if defaults.title.Some? then defaults.title else base.title,
      if defaults.description.Some? then defaults.description else base.description,
      if defaults.dueDate.Some? then defaults.dueDate else base.dueDate,
      if defaults.status.Some? then defaults.status else base.status,
      if defaults.tags.Some? then defaults.tags else base.tags,
      if defaults.isMIT.Some? then defaults.isMIT else base.isMIT,
      if defaults.priority.Some? then defaults.priority else base.priority)
  }

  const NewTaskBase := TaskPatch(Some(""), Some(""), Some(""), Some(Open), Some([]), Some(true), Some(1))

  /** `/^\d{4}-\d{2}-\d{2}$/`. */
  predicate DayShaped(s: string)
  {
    |s| == 10 && s[4] == '-' && s[7] == '-' &&
    AllDigits(s[..4]) && AllDigits(s[5..7]) && AllDigits(s[8..])
  }

  /** A default due date not shaped like a day is rewritten as the day it
      reads as; one that does not read as a date is kept as it is. */
  function NormalizedDue(due: Option<string>): (r: Option<string>)
    ensures due.None? || due == Some("") || DayShaped(due.value) ==> r == due
    ensures r != due ==> r.Some? && DateStringDay(due.value) == r
  {
    if due.None? || due.value == "" || DayShaped(due.value) then due
    else if DateStringDay(due.value).Some? then DateStringDay(due.value)
    else due
  }

  /** The fields an existing task loads with: its own, the due date taken
      to its day. `None`: the due date does not read as a date, and the
      effect throws before anything is set. */
  function LoadedFields(task: Task): (r: Option<TaskPatch>)
    ensures r.Some? ==>
      r.value.title == Some(task.title) && r.value.description == task.description &&
      r.value.status == Some(task.status) && r.value.tags == task.tags &&
      r.value.isMIT == Some(task.isMIT) && r.value.priority == Some(task.priority)
    ensures r.Some? && (task.dueDate.None? || task.dueDate == Some("")) ==> r.value.dueDate == Some("")
    ensures r.None? <==> task.dueDate.Some? && task.dueDate.value != "" && DateStringDay(task.dueDate.value).None?
  {
    var due := if task.dueDate.None? || task.dueDate.value == "" then Some("") else DateStringDay(task.dueDate.value);
    if due.None? then None
    else Some(TaskPatch(Some(task.title), task.description, due, Some(task.status), task.tags, Some(task.isMIT), Some(task.priority)))
  }

  /** `priority || 1`. */
  function InitialPriority(p: Option<int>): (r: int)
    ensures p.Some? && p.value != 0 ==> r == p.value
    ensures !(p.Some? && p.value != 0) ==> r == 1
  {
    if p.Some? && p.value != 0 then p.value else 1
  }

  /** What `onSave` receives: the edited fields with the chosen list and
      priority, under the task's id when one is edited. */
  datatype SavedTask = SavedTask(taskId: Option<string>, data: TaskPatch)

  class Form {
    const task: Option<Task>
    const litTaskCount: int
    var current: TaskPatch
    var selectedList: ListId
    var priorityNumber: int

    /** The effect that loads the form: from the task, or from the new-task
        defaults overridden by `defaultValues`. */
    constructor (task: Option<Task>, mitTaskCount: int, litTaskCount: int, defaults: TaskPatch)
      ensures this.task == task && this.litTaskCount == litTaskCount
      ensures task.Some? && LoadedFields(task.value).Some? ==>
        current == LoadedFields(task.value).value &&
        selectedList == (if task.value.isMIT then MitList else LitList) &&
        priorityNumber == InitialPriority(Some(task.value.priority))
      ensures task.Some? && LoadedFields(task.value).None? ==>
        current == EmptyPatch && selectedList == MitList && priorityNumber == 1
      ensures task.None? ==>
        var m := Merge(NewTaskBase, defaults);
        current == m.(dueDate := NormalizedDue(m.dueDate)) &&
        selectedList == (if m.isMIT == Some(true) then MitList else LitList) &&
        priorityNumber == InitialPriority(m.priority)
    {
      this.task := task;
      this.litTaskCount := litTaskCount;
      if task.Some? {
        var loaded := LoadedFields(task.value);
        if loaded.Some? {
          current := loaded.value;
          selectedList := if task.value.isMIT then MitList else LitList;
          priorityNumber := InitialPriority(Some(task.value.priority));
        } else {
          current := EmptyPatch;
          selectedList := MitList;
          priorityNumber := 1;
        }
      } else {
        var m := Merge(NewTaskBase, defaults);
        current := m.(dueDate := NormalizedDue(m.dueDate));
        selectedList := if m.isMIT == Some(true) then MitList else LitList;
        priorityNumber := InitialPriority(m.priority);
      }
    }

    function MaxPriorityNow(): int
      reads this
    {
      MaxPriority(selectedList, litTaskCount)
    }

    /** `handleListChange`: the other list starts again at priority 1. */
    method ListChanged(list: ListId)
      modifies this
      ensures selectedList == list && priorityNumber == 1 && current == old(current)
    {
      selectedList := list;
      priorityNumber := 1;
    }

    method PriorityTyped(v: Option<int>)
      modifies this
      ensures priorityNumber == TypedPriority(v) && selectedList == old(selectedList) && current == old(current)
    {
      priorityNumber := TypedPriority(v);
    }

    method PriorityBlurred(v: Option<int>)
      modifies this
      ensures priorityNumber == BlurredPriority(v, MaxPriority(selectedList, litTaskCount))
      ensures 1 <= priorityNumber <= MaxPriorityNow()
      ensures selectedList == old(selectedList) && current == old(current)
    {
      priorityNumber := BlurredPriority(v, MaxPriority(selectedList, litTaskCount));
    }

    /** `handleChange` for the text fields, and `handleTagsChange`. */
    method TitleChanged(value: string)
      modifies this
      ensures current == old(current).(title := Some(value))
      ensures selectedList == old(selectedList) && priorityNumber == old(priorityNumber)
    {
      current := current.(title := Some(value));
    }

    method DescriptionChanged(value: string)
      modifies this
      ensures current == old(current).(description := Some(value))
      ensures selectedList == old(selectedList) && priorityNumber == old(priorityNumber)
    {
      current := current.(description := Some(value));
    }

    method DueDateChanged(value: string)
      modifies this
      ensures current == old(current).(dueDate := Some(value))
      ensures selectedList == old(selectedList) && priorityNumber == old(priorityNumber)
    {
      current := current.(dueDate := Some(value));
    }

    method StatusChanged(value: Status)
      modifies this
      ensures current == old(current).(status := Some(value))
      ensures selectedList == old(selectedList) && priorityNumber == old(priorityNumber)
    {
      current := current.(status := Some(value));
    }

    method TagsChanged(tags: seq<string>)
      modifies this
      ensures current == old(current).(tags := Some(tags))
      ensures selectedList == old(selectedList) && priorityNumber == old(priorityNumber)
    {
      current := current.(tags := Some(tags));
    }

    /** `handleSave`: nothing past either limit; otherwise the fields with
        `isMIT` set from the list and the current priority. */
    method Save() returns (saved: Option<SavedTask>)
      ensures OverLimit(current) ==> saved == None
      ensures !OverLimit(current) ==>
        saved.Some? &&
        saved.value.taskId == (if task.Some? then Some(task.value.taskId) else None) &&
        saved.value.data == current.(isMIT := Some(selectedList == MitList), priority := Some(priorityNumber))
    {
      if OverLimit(current) {
        saved := None;
      } else {
        var id := if task.Some? then Some(task.value.taskId) else None;
        saved := Some(SavedTask(id, current.(isMIT := Some(selectedList == MitList), priority := Some(priorityNumber))));
      }
    }
  }

  /** An enabled Save button always hands a record over. */
  lemma EnabledSaveSaves(current: TaskPatch)
    ensures !SaveDisabled(current) ==> !OverLimit(current)
  {
  }
}
