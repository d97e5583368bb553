/** The undo stack for task operations (`src/hooks/useUndo.ts`). Each
    recorded operation becomes an entry at the front of the stack, which
    keeps the ten most recent. Undoing an entry runs the inverse task call
    and then drops the entry. The entry id and its time come from
    `Date.now()` and `Math.random()` and are inputs here. The 30-second
    expiry timer is an explicit operation. */
module Undo {
  import opened Wrappers
  import opened Seqs
  import opened Tasks

  /** The operation an entry can undo. */
  datatype TaskAction =
    | CreateAction(taskId: string, taskData: Task)
    | UpdateAction(taskId: string, oldData: TaskPatch, newData: TaskPatch)
    | DeleteAction(taskId: string, taskData: Task)

  /** An `UndoAction`: its `execute` closure is the action it undoes. */
  datatype UndoEntry = UndoEntry(id: string, action: TaskAction, description: string, timestamp: int)

  /** The task call `executeUndo` makes. */
  datatype InverseCall = DeleteTask(taskId: string) | UpdateTask(taskId: string, patch: TaskPatch) | CreateTask(task: Task)

  const UndoCap: nat := 10
  const NothingToUndo := "No action to undo"

  /** `executeUndo`: a create is undone by deleting the task, an update by
      writing back the old fields, a delete by creating the task again under
      its original id. */
  function InverseOf(a: TaskAction): (c: InverseCall)
    ensures a.CreateAction? <==> c.DeleteTask?
    ensures a.UpdateAction? <==> c.UpdateTask?
    ensures a.CreateAction? ==> c.taskId == a.taskId
    ensures a.UpdateAction? ==> c.taskId == a.taskId && c.patch == a.oldData
    ensures a.DeleteAction? ==> c.CreateTask? && c.task.taskId == a.taskId && c.task.(taskId := a.taskData.taskId) == a.taskData
  {
    match a
    case CreateAction(id, _) => DeleteTask(id)
    case UpdateAction(id, oldData, _) => UpdateTask(id, oldData)
    case DeleteAction(id, data) => CreateTask(data.(taskId := id))
  }

  const CreatedPrefix := "Created task: "
  const UpdatedPrefix := "Updated task: "
  const DeletedPrefix := "Deleted task: "

  /** `getActionDescription`: the verb and the task's title; an update
      names its new title, or "Unknown" when it sets none. */
  function Describe(a: TaskAction): (d: string)
    ensures a.CreateAction? ==> d == CreatedPrefix + a.taskData.title
    ensures a.DeleteAction? ==> d == DeletedPrefix + a.taskData.title
    ensures a.UpdateAction? && a.newData.title.Some? && a.newData.title.value != "" ==>
      d == UpdatedPrefix + a.newData.title.value
    ensures a.UpdateAction? && !(a.newData.title.Some? && a.newData.title.value != "") ==>
      d == UpdatedPrefix + "Unknown"
  {
    match a
    case CreateAction(_, data) => CreatedPrefix + data.title
    case UpdateAction(_, _, newData) =>
      UpdatedPrefix + (if newData.title.Some? && newData.title.value != "" then newData.title.value else "Unknown")
    case DeleteAction(_, data) => DeletedPrefix + data.title
  }

  /** The description says which kind of operation is undone: the three
      prefixes differ. */
  lemma DescribeKind(a: TaskAction, b: TaskAction)
    requires Describe(a) == Describe(b)
    ensures a.CreateAction? == b.CreateAction? && a.UpdateAction? == b.UpdateAction?
  {
    var da, db := Describe(a), Describe(b);
    assert da[..8] == db[..8];
    if a.CreateAction? { assert da[..8] == "Created "; }
    if a.UpdateAction? { assert da[..8] == "Updated "; }
    if a.DeleteAction? { assert da[..8] == "Deleted "; }
    if b.CreateAction? { assert db[..8] == "Created "; }
    if b.UpdateAction? { assert db[..8] == "Updated "; }
    if b.DeleteAction? { assert db[..8] == "Deleted "; }
  }

  function NotId(id: string): UndoEntry -> bool
  {
    (e: UndoEntry) => e.id != id
  }

  /** `prev.filter(a => a.id !== id)`. */
  function RemoveId(stack: seq<UndoEntry>, id: string): seq<UndoEntry>
  {
    Filter(stack, NotId(id))
  }

  /** Exactly the entries with that id go; the others stay, in order. */
  lemma RemoveIdCorrect(stack: seq<UndoEntry>, id: string)
    ensures forall e :: e in RemoveId(stack, id) <==> e in stack && e.id != id
    ensures (forall e :: e in stack ==> e.id != id) ==> RemoveId(stack, id) == stack
    ensures |RemoveId(stack, id)| <= |stack|
  {
    FilterMembers(stack, NotId(id));
    if forall e :: e in stack ==> e.id != id {
      FilterAll(stack, NotId(id));
    }
  }

  /** The entry `undo(actionId)` targets: the one with that id, or the most
      recent when no id (or an empty one) is given. */
  function TargetOf(stack: seq<UndoEntry>, actionId: Option<string>): (r: Option<UndoEntry>)
    ensures r.Some? ==> r.value in stack
    ensures actionId.Some? && actionId.value != "" ==>
      (r.Some? <==> exists e :: e in stack && e.id == actionId.value) && (r.Some? ==> r.value.id == actionId.value)
    ensures !(actionId.Some? && actionId.value != "") ==> r == if |stack| > 0 then Some(stack[0]) else None
  {
    if actionId.Some? && actionId.value != "" then
      var k := IndexWhere(stack, (e: UndoEntry) => e.id == actionId.value);
      if k < 0 then None else Some(stack[k])
    else if |stack| > 0 then Some(stack[0])
    else None
  }

  /** How a call of `undo` ended. */
  datatype UndoOutcome = NoAction | Undone(call: InverseCall) | UndoFailed(call: InverseCall)

  class UndoStack {
    var stack: seq<UndoEntry>
    var isUndoing: bool
    /** The entries whose expiry timer is still pending. */
    var pendingTimers: set<string>
    /** The entry whose timer `timeoutRef` holds, unless it was cleared. */
    var latestTimer: Option<string>

    ghost predicate Valid()
      reads this
    {
      |stack| <= UndoCap && (latestTimer.Some? ==> latestTimer.value in pendingTimers)
    }

    constructor ()
      ensures Valid() && stack == [] && !isUndoing && pendingTimers == {} && latestTimer == None
    {
      stack := [];
      isUndoing := false;
      pendingTimers := {};
      latestTimer := None;
    }

    /** `addUndoAction`: the new entry goes in front and only the ten most
        recent stay; its expiry timer is scheduled and becomes the one
        `timeoutRef` holds. */
    method AddUndoAction(id: string, now: int, action: TaskAction)
      requires Valid()
      modifies this
      ensures Valid()
      ensures stack == Take([UndoEntry(id, action, Describe(action), now)] + old(stack), UndoCap)
      ensures stack[0] == UndoEntry(id, action, Describe(action), now)
      ensures |old(stack)| < UndoCap ==> stack[1..] == old(stack)
      ensures |old(stack)| == UndoCap ==> stack[1..] == old(stack)[..UndoCap - 1]
      ensures pendingTimers == old(pendingTimers) + {id} && latestTimer == Some(id)
      ensures isUndoing == old(isUndoing)
    {
      var entry := UndoEntry(id, action, Describe(action), now);
      stack := Take([entry] + stack, UndoCap);
      pendingTimers := pendingTimers + {id};
      latestTimer := Some(id);
    }

    /** The 30-second timer of an entry fires: if it was not cleared, the
        entry leaves the stack. */
    method Expire(id: string)
      requires Valid()
      modifies this
      ensures Valid()
      ensures id in old(pendingTimers) ==>
        stack == RemoveId(old(stack), id) && pendingTimers == old(pendingTimers) - {id} &&
        latestTimer == (if old(latestTimer) == Some(id) then None else old(latestTimer))
      ensures id !in old(pendingTimers) ==>
        stack == old(stack) && pendingTimers == old(pendingTimers) && latestTimer == old(latestTimer)
      ensures isUndoing == old(isUndoing)
    {
      if id in pendingTimers {
        RemoveIdCorrect(stack, id);
        stack := RemoveId(stack, id);
        pendingTimers := pendingTimers - {id};
        if latestTimer == Some(id) {
          latestTimer := None;
        }
      }
    }

    /** `undo(actionId)`. `ok` says whether the inverse task call
        succeeds. Without a target it fails with "No action to undo" and
        changes nothing; a failed call leaves the stack as it was; a
        successful one drops exactly the entries with the target's id.
        `isUndoing` is cleared again either way. */
    method UndoAction(actionId: Option<string>, ok: bool) returns (outcome: UndoOutcome, error: Option<string>)
      requires Valid()
      modifies this
      ensures Valid()
      ensures var t := TargetOf(old(stack), actionId);
        (t.None? ==> outcome == NoAction && error == Some(NothingToUndo) && stack == old(stack)) &&
        (t.Some? && !ok ==> outcome == UndoFailed(InverseOf(t.value.action)) && error.Some? && stack == old(stack)) &&
        (t.Some? && ok ==>
           outcome == Undone(InverseOf(t.value.action)) && error == None &&
           stack == RemoveId(old(stack), t.value.id))
      ensures !isUndoing
      ensures pendingTimers == old(pendingTimers) && latestTimer == old(latestTimer)
    {
      var t := TargetOf(stack, actionId);
      if t.None? {
        outcome, error := NoAction, Some(NothingToUndo);
      } else {
        var call := InverseOf(t.value.action);
        isUndoing := true;
        if ok {
          RemoveIdCorrect(stack, t.value.id);
          stack := RemoveId(stack, t.value.id);
          outcome, error := Undone(call), None;
        } else {
          outcome, error := UndoFailed(call), Some("undo call failed");
        }
      }
      isUndoing := false;
    }

    /** `clearUndo(actionId)`: an id drops that entry, no id (or an empty
        one) empties the stack. Only the most recent expiry timer is
        cancelled. */
    method ClearUndo(actionId: Option<string>)
      requires Valid()
      modifies this
      ensures Valid()
      ensures actionId.Some? && actionId.value != "" ==> stack == RemoveId(old(stack), actionId.value)
      ensures !(actionId.Some? && actionId.value != "") ==> stack == []
      ensures old(latestTimer).Some? ==> pendingTimers == old(pendingTimers) - {old(latestTimer).value}
      ensures old(latestTimer).None? ==> pendingTimers == old(pendingTimers)
      ensures latestTimer == None && isUndoing == old(isUndoing)
    {
      if actionId.Some? && actionId.value != "" {
        RemoveIdCorrect(stack, actionId.value);
        stack := RemoveId(stack, actionId.value);
      } else {
        stack := [];
      }
      if latestTimer.Some? {
        pendingTimers := pendingTimers - {latestTimer.value};
      }
      latestTimer := None;
    }
  }

  /** Right after an action is recorded, `undo()` targets it and undoes it
      by its inverse. */
  lemma UndoTargetsNewest(stack: seq<UndoEntry>, e: UndoEntry)
    ensures TargetOf(Take([e] + stack, UndoCap), None) == Some(e)
    ensures TargetOf(Take([e] + stack, UndoCap), Some("")) == Some(e)
  {
  }

  /** Recording onto a full stack keeps ten entries: the new one in front,
      then all but the oldest, in their order. */
  lemma CapDropsOldest(stack: seq<UndoEntry>, e: UndoEntry)
    requires |stack| == UndoCap
    ensures var s := Take([e] + stack, UndoCap);
      |s| == UndoCap && s[0] == e && s[1..] == stack[..UndoCap - 1]
  {
    var s := Take([e] + stack, UndoCap);
    assert s[1..] == stack[..UndoCap - 1];
  }
}
