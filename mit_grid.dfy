/** The three-slot grid of most important tasks (`src/components/mit-grid.tsx`).
    Slot i shows `tasks[i]` when there is one and an empty placeholder
    otherwise; tasks after the third are not shown. */
module MitGrid {
  import opened Tasks
  import opened Seqs

  const SlotCount := 3

  datatype Slot = Card(task: Task) | EmptySlot

  /** `slots.map((_, index) => tasks[index] ? card : placeholder)`. */
  function Slots(tasks: seq<Task>): (r: seq<Slot>)
    ensures |r| == SlotCount
    ensures forall i :: 0 <= i < SlotCount ==> r[i] == if i < |tasks| then Card(tasks[i]) else EmptySlot
  {
    seq(SlotCount, i requires 0 <= i => if i < |tasks| then Card(tasks[i]) else EmptySlot)
  }

  function IsEmptySlot(): Slot -> bool
  {
    (s: Slot) => s.EmptySlot?
  }

  /** The shown cards are the first three tasks in order, and the
      placeholders fill up to three: max(0, 3 - n) of them. */
  lemma {:induction false} SlotsShown(tasks: seq<Task>)
    ensures Count(Slots(tasks), IsEmptySlot()) == if |tasks| >= 3 then 0 else 3 - |tasks|
    ensures forall s :: s in Slots(tasks) && s.Card? ==> s.task in tasks[..if |tasks| < 3 then |tasks| else 3]
  {
    var r, f := Slots(tasks), IsEmptySlot();
    var a := r[1..];
    var b := a[1..];
    assert b[1..] == [] && a[0] == r[1] && b[0] == r[2];
    assert |Filter(b, f)| == (if f(r[2]) then 1 else 0);
    assert |Filter(a, f)| == (if f(r[1]) then 1 else 0) + |Filter(b, f)|;
    assert |Filter(r, f)| == (if f(r[0]) then 1 else 0) + |Filter(a, f)|;
    forall s | s in r && s.Card? ensures s.task in tasks[..if |tasks| < 3 then |tasks| else 3] {
      var i :| 0 <= i < 3 && r[i] == s;
      assert tasks[..if |tasks| < 3 then |tasks| else 3][i] == tasks[i];
    }
  }
}
