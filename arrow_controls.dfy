/** The arrow buttons on a task card (`src/components/ArrowControls.tsx`).
    Up and down move the task within its own list. One horizontal arrow
    moves it to the other list at the same position. Two diagonals move it
    to the top or the bottom of the other list. The buttons are collected
    one `push` at a time; a click's `onMove` call is the arrow's target. */
module ArrowControls {
  import opened Tasks

  datatype Direction = Up | Down | Right | Left | UpRight | DownRight | UpLeft | DownLeft

  /** A button and the `onMove(taskId, targetList, targetIndex)` it calls. */
  datatype Arrow = Arrow(direction: Direction, targetList: ListId, targetIndex: int)

  /** Whether the card of the task at `index` in `list` shows the arrow. */
  predicate Shown(list: ListId, index: nat, mitLen: nat, litLen: nat, d: Direction)
  {
    var current := if list == MitList then mitLen else litLen;
    var other := if list == MitList then litLen else mitLen;
    match d
    case Up => index > 0
    case Down => index < current - 1
    case Right => list == MitList
    case Left => list == LitList
    case UpRight => list == MitList && other > 0
    case DownRight => list == MitList && other > 0
    case UpLeft => list == LitList && other > 0
    case DownLeft => list == LitList && other > 0
  }

  /** The move a shown arrow makes. Up and down stay in the task's list
      and step by one; every other arrow goes to the other list. The
      horizontal one keeps the index, or lands at 0 when the other list is
      empty; the diagonals go to the other list's top and its end. */
  function ArrowFor(list: ListId, index: nat, mitLen: nat, litLen: nat, d: Direction): (a: Arrow)
    ensures a.direction == d
    ensures a.targetList == list <==> d == Up || d == Down
    ensures d == Up ==> a.targetIndex == index - 1
    ensures d == Down ==> a.targetIndex == index + 1
    ensures (d == Right || d == Left) ==>
      a.targetIndex == if (if list == MitList then litLen else mitLen) == 0 then 0 else index
    ensures (d == UpRight || d == UpLeft) ==> a.targetIndex == 0
    ensures (d == DownRight || d == DownLeft) ==> a.targetIndex == if list == MitList then litLen else mitLen
  {
    var other := if list == MitList then litLen else mitLen;
    match d
    case Up => Arrow(Up, list, index - 1)
    case Down => Arrow(Down, list, index + 1)
    case Right => Arrow(Right, OtherList(list), if other == 0 then 0 else index)
    case Left => Arrow(Left, OtherList(list), if other == 0 then 0 else index)
    case UpRight => Arrow(UpRight, OtherList(list), 0)
    case DownRight => Arrow(DownRight, OtherList(list), other)
    case UpLeft => Arrow(UpLeft, OtherList(list), 0)
    case DownLeft => Arrow(DownLeft, OtherList(list), other)
  }

  predicate Has(arrows: seq<Arrow>, d: Direction)
  {
    exists a :: a in arrows && a.direction == d
  }

  /** No direction appears twice. */
  predicate DistinctDirections(arrows: seq<Arrow>)
  {
    forall i, j :: 0 <= i < j < |arrows| ==> arrows[i].direction != arrows[j].direction
  }

  /** A direction's place on the card: up, down, horizontal, top, bottom. */
  function Rank(d: Direction): nat
  {
    match d
    case Up => 0
    case Down => 1
    case Right | Left => 2
    case UpRight | UpLeft => 3
    case DownRight | DownLeft => 4
  }

  predicate InCardOrder(arrows: seq<Arrow>)
  {
    forall i, j :: 0 <= i < j < |arrows| ==> Rank(arrows[i].direction) < Rank(arrows[j].direction)
  }

  predicate Vertical(d: Direction)
  {
    d == Up || d == Down
  }

  /** The buttons in the order the card shows them: up, down, the
      horizontal arrow, then the top and bottom diagonals. Each direction
      appears at most once, exactly when it is shown, with its move. */
  method Arrows(list: ListId, index: nat, mitLen: nat, litLen: nat) returns (arrows: seq<Arrow>)
    ensures forall d :: Has(arrows, d) <==> Shown(list, index, mitLen, litLen, d)
    ensures forall a :: a in arrows ==> a == ArrowFor(list, index, mitLen, litLen, a.direction)
    ensures DistinctDirections(arrows) && InCardOrder(arrows)
    ensures |arrows| >= 1
  {
    var own := OwnListArrows(list, index, mitLen, litLen);
    var cross := OtherListArrows(list, index, mitLen, litLen);
    arrows := own + cross;
    forall i, j | 0 <= i < j < |arrows| ensures arrows[i].direction != arrows[j].direction {
      if j < |own| {
        assert arrows[i] == own[i] && arrows[j] == own[j];
      } else if i >= |own| {
        assert arrows[i] == cross[i - |own|] && arrows[j] == cross[j - |own|];
      } else {
        assert arrows[i] == own[i] && arrows[j] == cross[j - |own|];
        assert own[i] in own && cross[j - |own|] in cross;
      }
    }
    forall i, j | 0 <= i < j < |arrows| ensures Rank(arrows[i].direction) < Rank(arrows[j].direction) {
      if j < |own| {
        assert arrows[i] == own[i] && arrows[j] == own[j];
      } else if i >= |own| {
        assert arrows[i] == cross[i - |own|] && arrows[j] == cross[j - |own|];
      } else {
        assert arrows[i] == own[i] && arrows[j] == cross[j - |own|];
        assert own[i] in own && cross[j - |own|] in cross;
      }
    }
    forall d ensures Has(arrows, d) <==> Shown(list, index, mitLen, litLen, d) {
      if Has(arrows, d) {
        var a :| a in arrows && a.direction == d;
        assert a in own || a in cross;
      }
      if Vertical(d) && Has(own, d) {
        var a :| a in own && a.direction == d;
        assert a in arrows;
      }
      if !Vertical(d) && Has(cross, d) {
        var a :| a in cross && a.direction == d;
        assert a in arrows;
      }
    }
  }

  /** The pushes of the up and down buttons. */
  method OwnListArrows(list: ListId, index: nat, mitLen: nat, litLen: nat) returns (own: seq<Arrow>)
    ensures forall a :: a in own ==> Vertical(a.direction) && a == ArrowFor(list, index, mitLen, litLen, a.direction)
    ensures forall d :: Vertical(d) ==> (Has(own, d) <==> Shown(list, index, mitLen, litLen, d))
    ensures DistinctDirections(own) && InCardOrder(own)
  {
    var current := if list == MitList then mitLen else litLen;
    own := [];
    if index > 0 {
      own := own + [Arrow(Up, list, index - 1)];
    }
    if index < current - 1 {
      own := own + [Arrow(Down, list, index + 1)];
    }
  }

  /** The pushes of the horizontal button and the two diagonals. */
  method OtherListArrows(list: ListId, index: nat, mitLen: nat, litLen: nat) returns (cross: seq<Arrow>)
    ensures forall a :: a in cross ==> !Vertical(a.direction) && a == ArrowFor(list, index, mitLen, litLen, a.direction)
    ensures forall d :: !Vertical(d) ==> (Has(cross, d) <==> Shown(list, index, mitLen, litLen, d))
    ensures DistinctDirections(cross) && InCardOrder(cross) && |cross| >= 1
  {
    var other := if list == MitList then litLen else mitLen;
    var otherList := OtherList(list);
    var side := if list == MitList then Right else Left;
    var top := if list == MitList then UpRight else UpLeft;
    var bottom := if list == MitList then DownRight else DownLeft;
    assert Rank(side) == 2 && Rank(top) == 3 && Rank(bottom) == 4;
    assert forall d :: !Vertical(d) ==>
      (Shown(list, index, mitLen, litLen, d) <==> d == side || (other > 0 && (d == top || d == bottom)));
    cross := [Arrow(side, otherList, if other == 0 then 0 else index)];
    if other > 0 {
      cross := cross + [Arrow(top, otherList, 0), Arrow(bottom, otherList, other)];
    }
    forall d ensures Has(cross, d) <==> d == side || (other > 0 && (d == top || d == bottom)) {
      if d == side { assert cross[0] in cross; }
      if other > 0 && d == top { assert cross[1] in cross; }
      if other > 0 && d == bottom { assert cross[2] in cross; }
    }
  }

  /** Exactly one horizontal arrow shows, and a diagonal only when the
      other list has tasks. */
  lemma ShownRules(list: ListId, index: nat, mitLen: nat, litLen: nat)
    ensures Shown(list, index, mitLen, litLen, Right) != Shown(list, index, mitLen, litLen, Left)
    ensures forall d :: d in {UpRight, DownRight, UpLeft, DownLeft} && Shown(list, index, mitLen, litLen, d) ==>
      (if list == MitList then litLen else mitLen) > 0
  {
  }

  /** A shown up or down arrow targets a position inside the task's own
      list, and a shown diagonal one from 0 to the other list's length. */
  lemma ShownTargetsInRange(list: ListId, index: nat, mitLen: nat, litLen: nat, d: Direction)
    requires index < (if list == MitList then mitLen else litLen)
    requires Shown(list, index, mitLen, litLen, d) && d != Right && d != Left
    ensures var a := ArrowFor(list, index, mitLen, litLen, d);
      0 <= a.targetIndex <= (if a.targetList == MitList then mitLen else litLen)
      && (d == Up || d == Down ==> a.targetIndex < (if list == MitList then mitLen else litLen))
  {
  }

  /** The first card of a list has no up arrow and the last no down arrow. */
  lemma EndsOfList(list: ListId, mitLen: nat, litLen: nat)
    requires (if list == MitList then mitLen else litLen) > 0
    ensures !Shown(list, 0, mitLen, litLen, Up)
    ensures !Shown(list, (if list == MitList then mitLen else litLen) - 1, mitLen, litLen, Down)
  {
  }

  /** The horizontal arrow keeps the index even when the other list is
      shorter: the third MIT moves to index 2 of a one-task LIT list, past
      its end; the drop position is left to the `onMove` handler. */
  lemma HorizontalPastEnd()
    ensures Shown(MitList, 2, 3, 1, Right) && ArrowFor(MitList, 2, 3, 1, Right) == Arrow(Right, LitList, 2)
  {
  }
}
