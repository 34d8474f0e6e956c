/** SnapScrollRect: on drag end, tweens the content's anchored position along
    the scroll axis to the nearest multiple of the cell step (cell size plus
    spacing). */
module SnapScrollRect {
  import opened Common

  datatype Grid = Grid(cellSize: Vec2, spacing: Vec2)

  /** A DOAnchorPosX / DOAnchorPosY tween and the coordinate it ends at. */
  datatype AxisTween = TweenX(targetX: real) | TweenY(targetY: real)

  /** nearestIndex: the position measured in steps, rounded. */
  function SnapIndex(current: real, step: real): (n: int)
    requires step != 0.0
    ensures Abs(current / step - n as real) <= 0.5
  {
    RoundToIntNearest(current / step, 0);
    RoundToInt(current / step)
  }

  /** targetX / targetY: that many whole steps from the origin. A zero step
      makes the float division infinite or NaN, and whatever index
      RoundToInt makes of it, times 0 the target is 0. */
  function SnapTarget(current: real, step: real): (r: real)
    ensures step == 0.0 ==> r == 0.0
    ensures step != 0.0 ==> Abs(current / step - r / step) <= 0.5
  {
    if step == 0.0 then 0.0
    else
      var n := SnapIndex(current, step);
      assert (n as real * step) / step == n as real;
      n as real * step
  }

  /** The position n whole steps from the origin. */
  function Steps(n: int, step: real): real { n as real * step }

  /** Every target is a whole number of steps from the origin: with a zero
      step, the origin itself. */
  lemma SnapTargetOnGrid(current: real, step: real)
    ensures exists n: int :: SnapTarget(current, step) == Steps(n, step)
    ensures step == 0.0 ==> SnapTarget(current, step) == 0.0
  {
    if step == 0.0 {
      assert SnapTarget(current, step) == Steps(0, step);
    } else {
      assert SnapTarget(current, step) == Steps(SnapIndex(current, step), step);
    }
  }

  /** r steps lie within half a step of x steps when r is within half of x. */
  lemma WithinHalfStep(current: real, step: real, x: real, r: real)
    requires x * step == current && step > 0.0
    requires x - 0.5 <= r <= x + 0.5
    ensures current - step / 2.0 <= r * step <= current + step / 2.0
  {
    MulMonotone(r, x + 0.5, step);
    MulMonotone(x - 0.5, r, step);
  }

  /** The index SnapToClosestCell picks is the integer nearest to the position
      measured in steps (the even one on a tie), and for a positive step the
      target lies within half a step of the current position. */
  lemma SnapTargetIsNearest(current: real, step: real, k: int)
    requires step != 0.0
    ensures Abs(current / step - SnapIndex(current, step) as real) <= Abs(current / step - k as real)
    ensures Abs(current / step - SnapIndex(current, step) as real) == 0.5 ==> SnapIndex(current, step) % 2 == 0
    ensures step > 0.0 ==>
              current - step / 2.0 <= SnapTarget(current, step) <= current + step / 2.0
  {
    var x := current / step;
    var r := SnapIndex(current, step);
    RoundToIntNearest(x, k);
    if step > 0.0 {
      assert x - 0.5 <= r as real <= x + 0.5;
      WithinHalfStep(current, step, x, r as real);
    }
  }

  /** A position already on a cell boundary stays where it is: snapping twice
      is snapping once. */
  lemma SnapTargetIdempotent(current: real, step: real)
    requires step != 0.0
    ensures SnapTarget(SnapTarget(current, step), step) == SnapTarget(current, step)
  {
    var n := SnapIndex(current, step);
    var t := n as real * step;
    assert t == SnapTarget(current, step);
    assert t / step == n as real;
    RoundToIntOfInt(n);
    assert SnapIndex(t, step) == RoundToInt(n as real);
  }

  /** The warning Start logs without a GridLayoutGroup. */
  const MissingGridWarning: string := "GridLayoutGroup이 없습니다! cellStep=100"

  class SnapScrollRectBehaviour {
    var cellStep: real
    var isHorizontal: bool
    var isVertical: bool
    /** The scroll rect's velocity. */
    var velocity: Vec2
    /** Position tweens running on the content, oldest first. */
    var tweens: seq<AxisTween>
    /** Debug.LogWarning messages, in order. */
    var warnings: seq<string>

    constructor ()
      ensures cellStep == 200.0 && isHorizontal && !isVertical
      ensures velocity == Zero2 && tweens == [] && warnings == []
    {
      warnings := [];
      cellStep := 200.0;
      isHorizontal := true;
      isVertical := false;
      velocity := Zero2;
      tweens := [];
    }

    /** Start: the step comes from the grid along the horizontal axis when the
        scroll rect scrolls horizontally, else the vertical one; 100 without a
        grid, with a warning. The axis flags are copied from the scroll rect. */
    method Start(grid: Option<Grid>, horizontal: bool, vertical: bool)
      modifies this`cellStep, this`isHorizontal, this`isVertical, this`warnings
      ensures grid.None? ==> cellStep == 100.0 && warnings == old(warnings) + [MissingGridWarning]
      ensures grid.Some? ==> warnings == old(warnings)
      ensures grid.Some? && horizontal ==> cellStep == grid.value.cellSize.x + grid.value.spacing.x
      ensures grid.Some? && !horizontal ==> cellStep == grid.value.cellSize.y + grid.value.spacing.y
      ensures isHorizontal == horizontal && isVertical == vertical
    {
      if grid.Some? {
        cellStep := if horizontal then grid.value.cellSize.x + grid.value.spacing.x
                    else grid.value.cellSize.y + grid.value.spacing.y;
      } else {
        warnings := warnings + [MissingGridWarning];
        cellStep := 100.0;
      }
      isHorizontal := horizontal;
      isVertical := vertical;
    }

    /** OnBeginDrag kills every tween on the content. */
    method OnBeginDrag()
      modifies this`tweens
      ensures tweens == []
    {
      tweens := [];
    }

    /** SnapToClosestCell, which is all OnEndDrag does. Horizontal wins when
        both axes are enabled; with neither nothing happens. */
    method OnEndDrag(anchoredPosition: Vec2)
      modifies this`velocity, this`tweens
      ensures !isHorizontal && !isVertical ==> velocity == old(velocity) && tweens == old(tweens)
      ensures isHorizontal ==>
                velocity == Zero2 && tweens == old(tweens) + [TweenX(SnapTarget(anchoredPosition.x, cellStep))]
      ensures !isHorizontal && isVertical ==>
                velocity == Zero2 && tweens == old(tweens) + [TweenY(SnapTarget(anchoredPosition.y, cellStep))]
    {
      if isHorizontal {
        velocity := Zero2;
        tweens := tweens + [TweenX(SnapTarget(anchoredPosition.x, cellStep))];
      } else if isVertical {
        velocity := Zero2;
        tweens := tweens + [TweenY(SnapTarget(anchoredPosition.y, cellStep))];
      }
    }
  }
}
