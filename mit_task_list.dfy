/** The MIT widget (`src/components/MITTaskList.tsx`): the three most
    important open tasks, the save dialog that forces new tasks into the MIT
    zone, how a failed save is reported, and the footer count. The server's
    answers are inputs. */
module MitTaskList {
  import opened Wrappers
  import opened Text
  import opened Seqs
  import opened Tasks

  /** Flagged MIT and not completed. */
  function EligibleMit(): Task -> bool
  {
    (t: Task) => t.isMIT && t.status != Completed
  }

  /** `fetchMITTasks`: filter, sort by priority, keep the first three. */
  function SelectMitTasks(all: seq<Task>): seq<Task>
  {
    Take(SortByPriority(Filter(all, EligibleMit())), MitCap)
  }

  /** The widget shows at most three tasks, all flagged MIT and not
      completed, in ascending priority, drawn from the answer; it shows
      three whenever three qualify, and every qualifying task left out has a
      priority no smaller than any shown. */
  lemma SelectMitTasksCorrect(all: seq<Task>)
    ensures var r := SelectMitTasks(all);
      var eligible := Filter(all, EligibleMit());
      |r| == (if |eligible| < 3 then |eligible| else 3) &&
      (forall t :: t in r ==> t.isMIT && t.status != Completed) &&
      PrioritySorted(r) &&
      multiset(r) <= multiset(all) &&
      (forall t, u :: t in r && u in multiset(eligible) - multiset(r) ==> t.priority <= u.priority)
  {
    var eligible := Filter(all, EligibleMit());
    var s := SortByPriority(eligible);
    var r := Take(s, MitCap);
    SortByPriorityCorrect(eligible);
    PrefixLeast(s, MitCap);
    PrefixSorted(s, MitCap);
    FilterMembers(all, EligibleMit());
    FilterMultiset(all, EligibleMit());
    forall t | t in r ensures t.isMIT && t.status != Completed {
      assert t in multiset(s);
      assert t in eligible;
      assert EligibleMit()(t);
    }
  }

  // ---------------------------------------------------------------------------
  // Saving.

  /** The call a save makes. */
  datatype SaveRequest = UpdateRequest(taskId: string, patch: TaskPatch) | CreateRequest(patch: TaskPatch)

  /** An edit updates the selected task with the form's fields; a new task
      is created with `isMIT: true` whatever the form said. */
  function MitSaveRequest(selected: Option<Task>, data: TaskPatch): (r: SaveRequest)
    ensures selected.Some? ==> r == UpdateRequest(selected.value.taskId, data)
    ensures selected.None? ==>
      r.CreateRequest? && r.patch.isMIT == Some(true) && r.patch.(isMIT := data.isMIT) == data
  {
    if selected.Some? then UpdateRequest(selected.value.taskId, data)
    else CreateRequest(data.(isMIT := Some(true)))
  }

  /** What the server reported on a failed save. */
  datatype SaveError = SaveError(status: Option<int>, errorCode: Option<string>)

  datatype Toast = SavedToast(updated: bool) | DuplicateToast | FailedToast

  predicate IsDuplicate(e: SaveError)
  {
    e.status == Some(409) || e.errorCode == Some("DUPLICATE_TASK")
  }

  const LoadError := "Failed to load MIT tasks"

  /** The footer: "1 MIT", otherwise the count and "MITs". */
  function FooterText(n: nat): (s: string)
    ensures s == "1 MIT" <==> n == 1
    ensures |NatToString(n)| < |s|
    ensures AllDigits(s[..|NatToString(n)|]) && DecimalValue(s[..|NatToString(n)|]) == n
  {
    var s := Counted(n, "MIT");
    assert s[..|NatToString(n)|] == NatToString(n);
    s
  }

  /** Only one task reads singular; every other count, zero included, reads
      as the count followed by "MITs". */
  lemma FooterPlural(n: nat)
    ensures n != 1 ==> FooterText(n) == NatToString(n) + " MITs"
    ensures FooterText(0) == "0 MITs" && FooterText(3) == "3 MITs"
  {
    var s := FooterText(n);
    var k := |NatToString(n)|;
    assert s == s[..k] + s[k..];
    if n != 1 {
      assert s[k..] == " MITs";
    }
    assert NatToString(0) == "0";
    assert NatToString(3) == "3";
  }

  class MitTaskListWidget {
    var tasks: seq<Task>
    var isLoading: bool
    var error: Option<string>
    var dialogOpen: bool
    var selected: Option<Task>

    constructor ()
      ensures tasks == [] && isLoading && error == None && !dialogOpen && selected == None
    {
      tasks := [];
      isLoading := true;
      error := None;
      dialogOpen := false;
      selected := None;
    }

    /** `fetchMITTasks` with the server's answer (`None`: the call failed);
        a failure keeps the previous list and sets the load error. */
    method FetchMitTasks(answer: Option<seq<Task>>)
      modifies this
      ensures answer.Some? ==> tasks == SelectMitTasks(answer.value) && error == None
      ensures answer.None? ==> tasks == old(tasks) && error == Some(LoadError)
      ensures !isLoading && dialogOpen == old(dialogOpen) && selected == old(selected)
    {
      isLoading := true;
      error := None;
      if answer.Some? {
        tasks := SelectMitTasks(answer.value);
      } else {
        error := Some(LoadError);
      }
      isLoading := false;
    }

    /** `handleSaveTask`: sends the request; on success reloads the list and
        closes the dialog; on failure reports a duplicate (409 or
        `DUPLICATE_TASK`) or a generic error and re-throws, changing nothing. */
    method HandleSaveTask(data: TaskPatch, failure: Option<SaveError>, reloaded: Option<seq<Task>>)
      returns (request: SaveRequest, toast: Toast, rethrown: bool)
      modifies this
      ensures request == MitSaveRequest(old(selected), data)
      ensures rethrown <==> failure.Some?
      ensures failure.Some? ==> toast == (if IsDuplicate(failure.value) then DuplicateToast else FailedToast)
      ensures failure.Some? ==>
        tasks == old(tasks) && error == old(error) && dialogOpen == old(dialogOpen) &&
        selected == old(selected) && isLoading == old(isLoading)
      ensures failure.None? ==>
        toast == SavedToast(old(selected).Some?) && !dialogOpen && selected == None && !isLoading &&
        (reloaded.Some? ==> tasks == SelectMitTasks(reloaded.value) && error == None) &&
        (reloaded.None? ==> tasks == old(tasks) && error == Some(LoadError))
    {
      request := MitSaveRequest(selected, data);
      if failure.Some? {
        toast := if IsDuplicate(failure.value) then DuplicateToast else FailedToast;
        rethrown := true;
        return;
      }
      toast := SavedToast(selected.Some?);
      rethrown := false;
      FetchMitTasks(reloaded);
      dialogOpen := false;
      selected := None;
    }
  }
}
