/** The LIT widget (`src/components/TopLITTasks.tsx`): MIT tasks beyond the
    first three spill into the LIT pool, relabelled, and the widget shows the
    three smallest priorities of that pool and counts all of it. */
module TopLitTasks {
  import opened Wrappers
  import opened Seqs
  import opened Tasks

  function OpenMit(): Task -> bool
  {
    (t: Task) => t.isMIT && t.status != Completed
  }

  function OpenLit(): Task -> bool
  {
    (t: Task) => !t.isMIT && t.status != Completed
  }

  /** `.map(task => ({ ...task, isMIT: false }))`. */
  function Relabel(ts: seq<Task>): (r: seq<Task>)
    ensures |r| == |ts|
  {
    seq(|ts|, i requires 0 <= i < |ts| => ts[i].(isMIT := false))
  }

  /** The overflow MIT tasks, relabelled, followed by the LIT tasks, sorted. */
  function LitPool(all: seq<Task>): seq<Task>
  {
    var mits := SortByPriority(Filter(all, OpenMit()));
    var lits := SortByPriority(Filter(all, OpenLit()));
    SortByPriority(Relabel(Drop(mits, MitCap)) + lits)
  }

  /** The `fetchLITTasks` result: the shown tasks and `totalLitCount`. */
  datatype LitView = LitView(shown: seq<Task>, total: nat)

  function FetchLitView(all: seq<Task>): LitView
  {
    var pool := LitPool(all);
    LitView(Take(pool, 3), |pool|)
  }

  /** The count is every open LIT task plus the MIT tasks past the third. */
  lemma TotalLitCount(all: seq<Task>)
    ensures var m := |Filter(all, OpenMit())|;
      FetchLitView(all).total == |Filter(all, OpenLit())| + (if m > 3 then m - 3 else 0)
  {
  }

  /** Which tasks end up in the pool: every open LIT task, and every open MIT
      task beyond the first three by priority, relabelled as LIT. */
  lemma LitPoolContents(all: seq<Task>)
    ensures var mits := SortByPriority(Filter(all, OpenMit()));
      multiset(LitPool(all)) == multiset(Relabel(Drop(mits, MitCap))) + multiset(Filter(all, OpenLit()))
  {
  }

  /** The relabelled overflow holds open tasks labelled LIT. */
  lemma OverflowMembers(all: seq<Task>)
    ensures var mits := SortByPriority(Filter(all, OpenMit()));
      forall t :: t in Relabel(Drop(mits, MitCap)) ==> !t.isMIT && t.status != Completed
  {
    var mits := SortByPriority(Filter(all, OpenMit()));
    var d := Drop(mits, MitCap);
    var over := Relabel(d);
    FilterMembers(all, OpenMit());
    assert mits == Take(mits, MitCap) + d;
    forall t | t in over ensures !t.isMIT && t.status != Completed {
      var i :| 0 <= i < |over| && over[i] == t;
      assert t == d[i].(isMIT := false);
      assert d[i] in multiset(mits);
      assert d[i] in Filter(all, OpenMit());
      assert OpenMit()(d[i]);
    }
  }

  lemma LitMembers(all: seq<Task>)
    ensures forall t :: t in SortByPriority(Filter(all, OpenLit())) ==> !t.isMIT && t.status != Completed
  {
    var lits := SortByPriority(Filter(all, OpenLit()));
    FilterMembers(all, OpenLit());
    forall t | t in lits ensures !t.isMIT && t.status != Completed {
      assert t in multiset(lits);
      assert t in Filter(all, OpenLit());
      assert OpenLit()(t);
    }
  }

  /** Every pool task is open and labelled LIT. */
  lemma LitPoolMembers(all: seq<Task>)
    ensures forall t :: t in LitPool(all) ==> !t.isMIT && t.status != Completed
  {
    var mits := SortByPriority(Filter(all, OpenMit()));
    var lits := SortByPriority(Filter(all, OpenLit()));
    var over := Relabel(Drop(mits, MitCap));
    var pool := LitPool(all);
    OverflowMembers(all);
    LitMembers(all);
    forall t | t in pool ensures !t.isMIT && t.status != Completed {
      assert t in multiset(pool);
      assert t in multiset(over + lits);
      assert t in over + lits;
    }
  }

  /** The widget shows the first three of the pool (all of it when smaller):
      open tasks, none flagged MIT, in ascending priority, each taken from the
      pool, and no pool task left out has a smaller priority. */
  lemma FetchLitViewCorrect(all: seq<Task>)
    ensures var v := FetchLitView(all);
      v.total == |LitPool(all)| && |v.shown| == (if v.total < 3 then v.total else 3) &&
      multiset(v.shown) <= multiset(LitPool(all)) &&
      (forall t :: t in v.shown ==> !t.isMIT && t.status != Completed) &&
      PrioritySorted(v.shown) &&
      (forall t, u :: t in v.shown && u in multiset(LitPool(all)) - multiset(v.shown) ==> t.priority <= u.priority)
  {
    var pool := LitPool(all);
    var mits := SortByPriority(Filter(all, OpenMit()));
    var lits := SortByPriority(Filter(all, OpenLit()));
    SortByPriorityCorrect(Relabel(Drop(mits, MitCap)) + lits);
    PrefixLeast(pool, 3);
    PrefixSorted(pool, 3);
    LitPoolMembers(all);
    TakeMultiset(pool, 3);
  }

  /** A new task from this widget is created with `isMIT: false`. */
  function LitCreatePatch(data: TaskPatch): (r: TaskPatch)
    ensures r.isMIT == Some(false) && r.(isMIT := data.isMIT) == data
  {
    data.(isMIT := Some(false))
  }

  const LoadError := "Failed to load LIT tasks"

  class TopLitWidget {
    var shown: seq<Task>
    var totalLitCount: nat
    var isLoading: bool
    var error: Option<string>
    var dialogOpen: bool
    var selected: Option<Task>

    constructor ()
      ensures shown == [] && totalLitCount == 0 && isLoading && error == None
      ensures !dialogOpen && selected == None
    {
      shown := [];
      totalLitCount := 0;
      isLoading := true;
      error := None;
      dialogOpen := false;
      selected := None;
    }

    /** `fetchLITTasks` with the server's answer (`None`: the call failed). */
    method FetchLitTasks(answer: Option<seq<Task>>)
      modifies this
      ensures answer.Some? ==>
        shown == FetchLitView(answer.value).shown && totalLitCount == FetchLitView(answer.value).total &&
        error == None
      ensures answer.None? ==>
        shown == old(shown) && totalLitCount == old(totalLitCount) && error == Some(LoadError)
      ensures !isLoading && dialogOpen == old(dialogOpen) && selected == old(selected)
    {
      isLoading := true;
      error := None;
      if answer.Some? {
        var v := FetchLitView(answer.value);
        shown := v.shown;
        totalLitCount := v.total;
      } else {
        error := Some(LoadError);
      }
      isLoading := false;
    }

    method HandleTaskClick(t: Task)
      modifies this
      ensures selected == Some(t) && dialogOpen
      ensures shown == old(shown) && totalLitCount == old(totalLitCount)
      ensures isLoading == old(isLoading) && error == old(error)
    {
      selected := Some(t);
      dialogOpen := true;
    }

    /** `handleSaveTask`: returns the patch a create would send (`None` for
        an update); a failed save is only logged and leaves the dialog open. */
    method HandleSaveTask(data: TaskPatch, saved: bool, reloaded: Option<seq<Task>>)
      returns (created: Option<TaskPatch>)
      modifies this
      ensures created == if old(selected).None? then Some(LitCreatePatch(data)) else None
      ensures !saved ==>
        shown == old(shown) && totalLitCount == old(totalLitCount) && error == old(error) &&
        isLoading == old(isLoading) && dialogOpen == old(dialogOpen) && selected == old(selected)
      ensures saved ==> !dialogOpen && selected == None && !isLoading
      ensures saved && reloaded.Some? ==>
        shown == FetchLitView(reloaded.value).shown && totalLitCount == FetchLitView(reloaded.value).total &&
        error == None
      ensures saved && reloaded.None? ==>
        shown == old(shown) && totalLitCount == old(totalLitCount) && error == Some(LoadError)
    {
      created := if selected.None? then Some(LitCreatePatch(data)) else None;
      if !saved { return; }
      FetchLitTasks(reloaded);
      dialogOpen := false;
      selected := None;
    }
  }
}
