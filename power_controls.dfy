/** The position buttons on a task card (`src/components/PowerControls.tsx`).
    A task is only ever offered the other list: a MIT task gets LIT
    buttons and a LIT task gets MIT buttons, numbered from 1. Button p
    moves the task to index p - 1 of that list. */
module PowerControls {
  import opened Tasks

  /** A numbered button and the `onMove(taskId, list, index)` it calls. */
  datatype Button = Button(position: nat, targetList: ListId, targetIndex: nat)

  function Min(a: int, b: int): int
  {
    if a < b then a else b
  }

  /** How many buttons show: `Math.min(availableLitPositions, 3)` with
      `litListLength + 1` positions for a MIT task, and
      `Math.min(3, mitListLength + 1)` for a LIT task. */
  function ButtonCount(list: ListId, mitLen: nat, litLen: nat): (n: nat)
    ensures 1 <= n <= 3
    ensures list == MitList ==> n == Min(3, litLen + 1)
    ensures list == LitList ==> n == Min(3, mitLen + 1)
  {
    if list == MitList then Min(litLen + 1, 3) else Min(3, mitLen + 1)
  }

  /** `Array.from({ length }, (_, i) => i + 1).map(...)` for the other list. */
  function Buttons(list: ListId, mitLen: nat, litLen: nat): (bs: seq<Button>)
    ensures |bs| == ButtonCount(list, mitLen, litLen)
    ensures forall i :: 0 <= i < |bs| ==> bs[i] == Button(i + 1, OtherList(list), i)
  {
    seq(ButtonCount(list, mitLen, litLen), (i: nat) => Button(i + 1, OtherList(list), i))
  }

  /** There is always a first button, every button goes to the other list,
      and none goes past the end of it. */
  lemma ButtonsInRange(list: ListId, mitLen: nat, litLen: nat)
    ensures var bs, other := Buttons(list, mitLen, litLen), if list == MitList then litLen else mitLen;
      |bs| >= 1 && bs[0] == Button(1, OtherList(list), 0) &&
      forall b :: b in bs ==> b.targetList != list && b.targetIndex <= other && b.targetIndex < 3
  {
  }
}
