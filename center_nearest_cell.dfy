/** CenterNearestCell_GridLayout: keeps the grid cell nearest to the viewport
    centre under watch. On drag end it tweens the content so that this cell is
    centred; once scrolling has stopped on one cell it plays a settle clip on
    that cell after a delay, at most once per stop.

    A frame's scene is a `Layout`: the content's children by index (None for a
    child that is not a RectTransform), the viewport centre already converted
    into the content's local space (InverseTransformPoint is the engine's), and
    the content's anchored position. */
module CenterNearestCell {
  import opened Common

  datatype Axes = Axes(horizontal: bool, vertical: bool)

  predicate HorizontalOnly(a: Axes) { a.horizontal && !a.vertical }
  predicate VerticalOnly(a: Axes) { a.vertical && !a.horizontal }

  /** A cell: its rect geometry, how many children it has, and the clips
      registered on the Animation of its first child (None: no Animation). */
  datatype Cell = Cell(localPosition: Vec2, size: Vec2, pivot: Vec2, childCount: nat, anim: Option<set<string>>)

  datatype Layout = Layout(cells: seq<Option<Cell>>, viewportCenter: Vec2, anchoredPosition: Vec2)

  datatype Grid = Grid(cellSize: Vec2, spacing: Vec2)

  datatype Padding = NoPadding | LeftRight(left: int, right: int) | TopBottom(top: int, bottom: int)

  /** A content-position tween: which axes it drives, where it ends, and the
      inertia value its completion callback writes back. */
  datatype SnapTween = SnapTween(moveX: bool, moveY: bool, target: Vec2, restoreInertia: bool)

  /** The visual centre of a cell: its local position shifted by its pivot offset. */
  function CellCenter(c: Cell): Vec2 {
    Vec2(c.localPosition.x + c.size.x * (0.5 - c.pivot.x),
         c.localPosition.y + c.size.y * (0.5 - c.pivot.y))
  }

  /** Distance along x for a horizontal-only rect; along y in every other
      configuration, both axes included. */
  function AxisDistance(axes: Axes, center: Vec2, viewportCenter: Vec2): (d: real)
    ensures d >= 0.0
    ensures HorizontalOnly(axes) ==> d == Abs(center.x - viewportCenter.x)
    ensures !HorizontalOnly(axes) ==> d == Abs(center.y - viewportCenter.y)
  {
    if HorizontalOnly(axes) then Abs(center.x - viewportCenter.x) else Abs(center.y - viewportCenter.y)
  }

  predicate ValidCell(l: Layout, i: nat) { i < |l.cells| && l.cells[i].Some? }

  function Distance(axes: Axes, l: Layout, i: nat): real
    requires ValidCell(l, i)
  {
    AxisDistance(axes, CellCenter(l.cells[i].value), l.viewportCenter)
  }

  /** The resolver's candidate after the loop has looked at children 0..k-1:
      a later child replaces the candidate only when it is strictly nearer. */
  function Scan(axes: Axes, l: Layout, k: nat): (r: Option<nat>)
    requires k <= |l.cells|
    ensures r.Some? ==> r.value < k && ValidCell(l, r.value)
  {
    if k == 0 then None
    else
      var best := Scan(axes, l, k - 1);
      if l.cells[k - 1].Some? && (best.None? || Distance(axes, l, k - 1) < Distance(axes, l, best.value))
      then Some(k - 1)
      else best
  }

  /** The cell GetCenterCell returns (None for null). */
  function CenterCell(axes: Axes, l: Layout): (r: Option<nat>)
    ensures r.Some? ==> ValidCell(l, r.value)
  {
    Scan(axes, l, |l.cells|)
  }

  /** i is the lowest-index child, among the first k, whose distance is minimal. */
  predicate NearestAmong(axes: Axes, l: Layout, i: nat, k: nat)
    requires k <= |l.cells|
  {
    i < k && ValidCell(l, i) &&
    forall j :: 0 <= j < k && ValidCell(l, j) ==>
      Distance(axes, l, i) <= Distance(axes, l, j) && (j < i ==> Distance(axes, l, i) < Distance(axes, l, j))
  }

  predicate NoValidAmong(l: Layout, k: nat)
    requires k <= |l.cells|
  {
    forall j :: 0 <= j < k ==> l.cells[j].None?
  }

  lemma {:induction false} ScanIsNearest(axes: Axes, l: Layout, k: nat)
    requires k <= |l.cells|
    ensures Scan(axes, l, k).None? <==> NoValidAmong(l, k)
    ensures Scan(axes, l, k).Some? ==> NearestAmong(axes, l, Scan(axes, l, k).value, k)
  {
    if k > 0 {
      ScanIsNearest(axes, l, k - 1);
    }
  }

  /** The resolver returns null exactly when no child is valid, and otherwise
      the lowest-index child at minimal axis distance. */
  lemma CenterCellIsNearest(axes: Axes, l: Layout)
    ensures CenterCell(axes, l).None? <==> NoValidAmong(l, |l.cells|)
    ensures CenterCell(axes, l).Some? ==> NearestAmong(axes, l, CenterCell(axes, l).value, |l.cells|)
  {
    ScanIsNearest(axes, l, |l.cells|);
  }

  /** The nearest child is unique: the lowest-index tie-break leaves one choice. */
  lemma NearestIsUnique(axes: Axes, l: Layout, i: nat, j: nat)
    requires NearestAmong(axes, l, i, |l.cells|) && NearestAmong(axes, l, j, |l.cells|)
    ensures i == j
  {
  }

  /** A square 80x80 cell, centre pivot, at x on the content's axis. */
  function CellAtX(x: real): Option<Cell> {
    Some(Cell(Vec2(x, 0.0), Vec2(80.0, 80.0), Vec2(0.5, 0.5), 1, None))
  }

  /** Five cells at x = 0, 100, 200, 300, 400 of a horizontal rect whose
      viewport centre sits at x = 215: the resolver picks the cell at 200. */
  lemma ResolverPicksCellAt200()
    ensures
      var l := Layout([CellAtX(0.0), CellAtX(100.0), CellAtX(200.0), CellAtX(300.0), CellAtX(400.0)],
                      Vec2(215.0, 0.0), Zero2);
      CenterCell(Axes(true, false), l) == Some(2)
  {
    var l := Layout([CellAtX(0.0), CellAtX(100.0), CellAtX(200.0), CellAtX(300.0), CellAtX(400.0)],
                    Vec2(215.0, 0.0), Zero2);
    var axes := Axes(true, false);
    assert Distance(axes, l, 0) == 215.0;
    assert Distance(axes, l, 1) == 115.0;
    assert Distance(axes, l, 2) == 15.0;
    assert Distance(axes, l, 3) == 85.0;
    assert Distance(axes, l, 4) == 185.0;
    assert Scan(axes, l, 1) == Some(0);
    assert Scan(axes, l, 2) == Some(1);
    assert Scan(axes, l, 3) == Some(2);
    assert Scan(axes, l, 4) == Some(2);
  }

  // ---------------------------------------------------------------------------
  // Snap target

  /** The tween that centres cell `c`: target = anchoredPosition + (viewport
      centre - cell centre); DOAnchorPosX for a horizontal-only rect,
      DOAnchorPosY for a vertical-only one, DOAnchorPos otherwise. */
  function SnapTweenFor(axes: Axes, l: Layout, c: Cell, restore: bool): (t: SnapTween)
    ensures t.moveX <==> !VerticalOnly(axes)
    ensures t.moveY <==> !HorizontalOnly(axes)
    ensures t.restoreInertia == restore
  {
    var center := CellCenter(c);
    var target := Vec2(l.anchoredPosition.x + (l.viewportCenter.x - center.x),
                       l.anchoredPosition.y + (l.viewportCenter.y - center.y));
    if HorizontalOnly(axes) then SnapTween(true, false, target, restore)
    else if VerticalOnly(axes) then SnapTween(false, true, target, restore)
    else SnapTween(true, true, target, restore)
  }

  /** Where the content stands once a tween has run to its end. */
  function TweenEnd(pos: Vec2, t: SnapTween): Vec2 {
    Vec2(if t.moveX then t.target.x else pos.x, if t.moveY then t.target.y else pos.y)
  }

  /** The same scene after the content has moved to `pos`: the children keep
      their local positions and the viewport centre, read in content space,
      moves the opposite way. */
  function MovedTo(l: Layout, pos: Vec2): Layout {
    l.(viewportCenter := Vec2(l.viewportCenter.x - (pos.x - l.anchoredPosition.x),
                              l.viewportCenter.y - (pos.y - l.anchoredPosition.y)),
       anchoredPosition := pos)
  }

  /** After a snap tween for cell i has finished, i sits exactly under the
      viewport centre along the measured axis (no bounds clamping is applied),
      so the resolver then returns i or a lower-index cell at the same spot. */
  lemma SnapCentresCell(axes: Axes, l: Layout, i: nat, restore: bool)
    requires ValidCell(l, i)
    ensures
      var l' := MovedTo(l, TweenEnd(l.anchoredPosition, SnapTweenFor(axes, l, l.cells[i].value, restore)));
      Distance(axes, l', i) == 0.0 &&
      CenterCell(axes, l').Some? && CenterCell(axes, l').value <= i &&
      Distance(axes, l', CenterCell(axes, l').value) == 0.0
  {
    var l' := MovedTo(l, TweenEnd(l.anchoredPosition, SnapTweenFor(axes, l, l.cells[i].value, restore)));
    assert Distance(axes, l', i) == 0.0;
    CenterCellIsNearest(axes, l');
    assert !NoValidAmong(l', |l'.cells|) by { assert l'.cells[i].Some?; }
  }

  /** Start-centering pads the grid so the first and last cells can reach the
      centre: half the spare viewport length, rounded, on both ends of the
      scroll axis. */
  function StartPadding(axes: Axes, viewportSize: Vec2, cellSize: Vec2): (p: Padding)
    ensures p.LeftRight? <==> HorizontalOnly(axes)
    ensures p.TopBottom? <==> VerticalOnly(axes)
    ensures p.LeftRight? ==> p.left == p.right
    ensures p.TopBottom? ==> p.top == p.bottom
  {
    if HorizontalOnly(axes) then
      var pad := RoundToInt((viewportSize.x - cellSize.x) / 2.0); LeftRight(pad, pad)
    else if VerticalOnly(axes) then
      var pad := RoundToInt((viewportSize.y - cellSize.y) / 2.0); TopBottom(pad, pad)
    else NoPadding
  }

  /** What the padding is for. A row (or column) of n cells of the given size
      and spacing, laid out between the two paddings, has content length
      `Extent`. Scrolled to its start, the first cell's centre is within half
      a unit of the viewport's centre; scrolled to its end (the content's end
      on the viewport's end), so is the last cell's. The rounding of the
      padding costs at most half a unit. */
  lemma StartPaddingCentresEndCells(axes: Axes, viewportSize: Vec2, cellSize: Vec2, n: nat, spacing: real)
    requires n >= 1
    ensures var p := StartPadding(axes, viewportSize, cellSize);
            (HorizontalOnly(axes) ==>
               Abs(p.left as real + cellSize.x / 2.0 - viewportSize.x / 2.0) <= 0.5 &&
               Abs(LastCentre(p.left, cellSize.x, n, spacing)
                   - (Extent(p.left, p.right, cellSize.x, n, spacing) - viewportSize.x)
                   - viewportSize.x / 2.0) <= 0.5) &&
            (VerticalOnly(axes) ==>
               Abs(p.top as real + cellSize.y / 2.0 - viewportSize.y / 2.0) <= 0.5 &&
               Abs(LastCentre(p.top, cellSize.y, n, spacing)
                   - (Extent(p.top, p.bottom, cellSize.y, n, spacing) - viewportSize.y)
                   - viewportSize.y / 2.0) <= 0.5)
  {
    var p := StartPadding(axes, viewportSize, cellSize);
    if HorizontalOnly(axes) {
      RoundToIntNearest((viewportSize.x - cellSize.x) / 2.0, 0);
      LastCentreFromEnd(p.left, p.right, cellSize.x, n, spacing);
    } else if VerticalOnly(axes) {
      RoundToIntNearest((viewportSize.y - cellSize.y) / 2.0, 0);
      LastCentreFromEnd(p.top, p.bottom, cellSize.y, n, spacing);
    }
  }

  /** The content length of n cells with spacing between them and the two
      paddings around them. */
  function Extent(before: int, after: int, cell: real, n: nat, spacing: real): real
    requires n >= 1
  {
    before as real + n as real * cell + (n - 1) as real * spacing + after as real
  }

  /** The centre of the last of n cells, measured from the content's start. */
  function LastCentre(before: int, cell: real, n: nat, spacing: real): real
    requires n >= 1
  {
    before as real + (n - 1) as real * (cell + spacing) + cell / 2.0
  }

  /** The last cell's centre lies half a cell and the trailing padding before
      the content's end. */
  lemma LastCentreFromEnd(before: int, after: int, cell: real, n: nat, spacing: real)
    requires n >= 1
    ensures LastCentre(before, cell, n, spacing) == Extent(before, after, cell, n, spacing) - after as real - cell / 2.0
  {
    var m := (n - 1) as real;
    assert n as real == m + 1.0;
    assert m * (cell + spacing) == m * cell + m * spacing;
    assert (m + 1.0) * cell == m * cell + cell;
  }

  // ---------------------------------------------------------------------------
  // Inertia bookkeeping of the snap tweens, on values.

  /** Starting a drag-end snap: inertia goes off and the tween remembers the
      value it had. */
  function StartSnap(inertia: bool, pending: seq<bool>): (bool, seq<bool>) {
    (false, pending + [inertia])
  }

  /** The oldest pending tween completes and writes its remembered value back. */
  function CompleteOldest(inertia: bool, pending: seq<bool>): (bool, seq<bool>) {
    if pending == [] then (inertia, pending) else (pending[0], pending[1..])
  }

  /** Two drag-end snaps that overlap in time (the second starts before the
      first completes; equal durations complete them in start order) leave
      inertia off for good, whatever it was before the first snap. */
  lemma OverlappingSnapsLeaveInertiaOff(inertia: bool)
    ensures
      var s1 := StartSnap(inertia, []);
      var s2 := StartSnap(s1.0, s1.1);
      var c1 := CompleteOldest(s2.0, s2.1);
      var c2 := CompleteOldest(c1.0, c1.1);
      c1.0 == inertia && c2.0 == false && c2.1 == []
  {
  }

  // ---------------------------------------------------------------------------
  // Centre tracking

  /** The four fields that drive the settle animation. */
  datatype Tracker = Tracker(currentCenter: Option<nat>, snapActive: Option<nat>, dragging: bool, snapExecuted: bool)

  predicate TrackerInv(t: Tracker) { t.snapExecuted ==> t.currentCenter.Some? }

  /** What one Update does: `changed` asks for the previously active cell's
      animation to stop, `scheduled` starts the delayed settle for `center`. */
  datatype TickResult = TickResult(next: Tracker, changed: bool, scheduled: bool)

  function Tick(t: Tracker, center: Option<nat>, stopped: bool): (r: TickResult)
    ensures r.next.currentCenter == center
    ensures r.next.snapActive == t.snapActive && r.next.dragging == t.dragging
    ensures r.changed <==> t.currentCenter.Some? && center != t.currentCenter
    ensures r.scheduled <==>
      center.Some? && center == t.currentCenter && stopped && !t.dragging && !t.snapExecuted
    ensures r.scheduled ==> r.next.snapExecuted
    ensures r.changed ==> r.next.snapExecuted == r.scheduled
    ensures TrackerInv(t) ==> TrackerInv(r.next)
  {
    var changed := t.currentCenter.Some? && center != t.currentCenter;
    var flag := if changed then false else t.snapExecuted;
    var scheduled := center.Some? && center == t.currentCenter && stopped && !t.dragging && !flag;
    TickResult(t.(currentCenter := center, snapExecuted := scheduled || flag), changed, scheduled)
  }

  function BeginDrag(t: Tracker): (r: Tracker)
    ensures r.dragging && !r.snapExecuted
    ensures r.currentCenter == t.currentCenter && r.snapActive == t.snapActive
  {
    t.(dragging := true, snapExecuted := false)
  }

  function EndDrag(t: Tracker): (r: Tracker)
    ensures !r.dragging
    ensures r.currentCenter == t.currentCenter && r.snapActive == t.snapActive && r.snapExecuted == t.snapExecuted
  {
    t.(dragging := false)
  }

  /** The delayed continuation for `captured`: it acts only if that cell is
      still the centre and no drag is under way. */
  predicate SettleProceeds(t: Tracker, captured: nat) {
    t.currentCenter == Some(captured) && !t.dragging
  }

  function Settle(t: Tracker, captured: nat): (r: Tracker)
    ensures SettleProceeds(t, captured) ==> r == t.(snapActive := Some(captured))
    ensures !SettleProceeds(t, captured) ==> r == t
  {
    if SettleProceeds(t, captured) then t.(snapActive := Some(captured)) else t
  }

  datatype TickInput = TickInput(center: Option<nat>, stopped: bool)

  /** How many settles a run of Updates schedules. */
  function ScheduleCount(t: Tracker, ins: seq<TickInput>): nat
    decreases |ins|
  {
    if ins == [] then 0
    else
      var r := Tick(t, ins[0].center, ins[0].stopped);
      (if r.scheduled then 1 else 0) + ScheduleCount(r.next, ins[1..])
  }

  predicate StaysOn(ins: seq<TickInput>, c: nat) {
    forall k :: 0 <= k < |ins| ==> ins[k].center == Some(c)
  }

  lemma {:induction false} NoRescheduleOnSameStop(t: Tracker, ins: seq<TickInput>, c: nat)
    requires StaysOn(ins, c) && t.currentCenter == Some(c) && t.snapExecuted
    ensures ScheduleCount(t, ins) == 0
    decreases |ins|
  {
    if ins != [] {
      NoRescheduleOnSameStop(Tick(t, ins[0].center, ins[0].stopped).next, ins[1..], c);
    }
  }

  /** However long the scroll rect rests on one cell (without a drag), the
      settle is scheduled at most once; none at all if it already was. */
  lemma {:induction false} AtMostOneSettlePerStop(t: Tracker, ins: seq<TickInput>, c: nat)
    requires StaysOn(ins, c) && !t.dragging
    ensures ScheduleCount(t, ins) <= 1
    ensures t.currentCenter == Some(c) && t.snapExecuted ==> ScheduleCount(t, ins) == 0
    decreases |ins|
  {
    if ins != [] {
      var r := Tick(t, ins[0].center, ins[0].stopped);
      if r.scheduled {
        NoRescheduleOnSameStop(r.next, ins[1..], c);
      } else {
        AtMostOneSettlePerStop(r.next, ins[1..], c);
      }
      if t.currentCenter == Some(c) && t.snapExecuted {
        assert !r.scheduled;
        NoRescheduleOnSameStop(r.next, ins[1..], c);
      }
    }
  }

  /** After a drag, the first tick never schedules (the centre it compares
      against is the one from before); a second tick on the same cell, once
      stopped, does. */
  lemma SettleAfterTwoStableTicks(t: Tracker, c: nat)
    requires !t.dragging && TrackerInv(t)
    ensures
      var r1 := Tick(t, Some(c), true);
      var r2 := Tick(r1.next, Some(c), true);
      (t.currentCenter != Some(c) ==> !r1.scheduled && r2.scheduled) &&
      ScheduleCount(t, [TickInput(Some(c), true), TickInput(Some(c), true)]) ==
        if t.currentCenter == Some(c) && t.snapExecuted then 0 else 1
  {
    var r1 := Tick(t, Some(c), true);
    var r2 := Tick(r1.next, Some(c), true);
    var ins := [TickInput(Some(c), true), TickInput(Some(c), true)];
    assert ins[1..] == [TickInput(Some(c), true)];
    assert ins[1..][1..] == [];
    assert ScheduleCount(r1.next, ins[1..]) == (if r2.scheduled then 1 else 0) + ScheduleCount(r2.next, []);
  }

  /** A settle scheduled at a stop is cancelled in effect by a drag or a change
      of centre before its delay elapses: its continuation then does nothing. */
  lemma StaleSettleIsNoOp(t: Tracker, c: nat, center: Option<nat>, stopped: bool)
    ensures Settle(BeginDrag(t), c) == BeginDrag(t)
    ensures center != Some(c) ==> Settle(Tick(t, center, stopped).next, c) == Tick(t, center, stopped).next
  {
  }

  // ---------------------------------------------------------------------------
  // The behaviour

  /** True when cell k has a first child with an Animation component. */
  predicate HasAnimation(l: Layout, k: nat) {
    ValidCell(l, k) && l.cells[k].value.childCount > 0 && l.cells[k].value.anim.Some?
  }

  predicate HasClip(l: Layout, k: nat, clip: string) {
    HasAnimation(l, k) && clip in l.cells[k].value.anim.value
  }

  /** The cells StopAllCellAnimationsExcept stops, among the first n. */
  function StoppedBy(l: Layout, except: nat, n: nat): set<nat> {
    set i | 0 <= i < n && i != except && HasAnimation(l, i)
  }

  /** Stopping the Animation on the first child of the cell `k` names, if any. */
  function StopCell(playing: map<nat, string>, l: Layout, k: Option<nat>): (p: map<nat, string>)
    ensures p.Keys <= playing.Keys
  {
    if k.Some? && HasAnimation(l, k.value) then playing - {k.value} else playing
  }

  class CenterNearestCellGrid {
    const axes: Axes
    const snapClip: Option<string>
    const dragClip: Option<string>
    const startCenterCellIndex: int

    var inertia: bool
    var currentCenterCell: Option<nat>
    var snapActiveCell: Option<nat>
    var isDragging: bool
    var snapExecutedForThisStop: bool
    /** Settle continuations waiting for their delay, each with the cell it captured. */
    var pendingSettles: seq<nat>
    /** Content-position tweens in flight, oldest first. */
    var snapTweens: seq<SnapTween>
    /** The clip playing on each cell's first-child Animation. */
    var playing: map<nat, string>

    function State(): Tracker
      reads this
    {
      Tracker(currentCenterCell, snapActiveCell, isDragging, snapExecutedForThisStop)
    }

    ghost predicate Valid()
      reads this
    {
      TrackerInv(State())
    }

    constructor (axes: Axes, snapClip: Option<string>, dragClip: Option<string>, startIndex: int, inertia: bool)
      ensures Valid()
      ensures this.axes == axes && this.snapClip == snapClip && this.dragClip == dragClip
      ensures startCenterCellIndex == startIndex && this.inertia == inertia
      ensures State() == Tracker(None, None, false, false)
      ensures pendingSettles == [] && snapTweens == [] && playing == map[]
    {
      this.axes := axes;
      this.snapClip := snapClip;
      this.dragClip := dragClip;
      this.startCenterCellIndex := startIndex;
      this.inertia := inertia;
      currentCenterCell := None;
      snapActiveCell := None;
      isDragging := false;
      snapExecutedForThisStop := false;
      pendingSettles := [];
      snapTweens := [];
      playing := map[];
    }

    /** GetCenterCell: the loop keeping minDistance and nearestCell
        (float.MaxValue as the initial minimum stands for "no candidate yet"). */
    method GetCenterCell(l: Layout) returns (nearest: Option<nat>)
      ensures nearest == CenterCell(axes, l)
      ensures nearest.None? <==> NoValidAmong(l, |l.cells|)
      ensures nearest.Some? ==> NearestAmong(axes, l, nearest.value, |l.cells|)
    {
      var minDistance := 0.0;
      nearest := None;
      var i := 0;
      while i < |l.cells|
        invariant 0 <= i <= |l.cells|
        invariant nearest == Scan(axes, l, i)
        invariant nearest.Some? ==> minDistance == Distance(axes, l, nearest.value)
      {
        if l.cells[i].Some? {
          var distance := AxisDistance(axes, CellCenter(l.cells[i].value), l.viewportCenter);
          if nearest.None? || distance < minDistance {
            minDistance := distance;
            nearest := Some(i);
          }
        }
        i := i + 1;
      }
      CenterCellIsNearest(axes, l);
    }

    method StopAllCellAnimationsExcept(l: Layout, except: nat)
      modifies this`playing
      ensures playing == old(playing) - StoppedBy(l, except, |l.cells|)
    {
      var i := 0;
      while i < |l.cells|
        invariant 0 <= i <= |l.cells|
        invariant playing == old(playing) - StoppedBy(l, except, i)
      {
        if l.cells[i].Some? && i != except && l.cells[i].value.childCount > 0 && l.cells[i].value.anim.Some? {
          playing := playing - {i};
        }
        assert StoppedBy(l, except, i + 1) ==
          StoppedBy(l, except, i) + (if i != except && HasAnimation(l, i) then {i} else {});
        i := i + 1;
      }
    }

    method OnBeginDrag(l: Layout)
      requires Valid()
      modifies this
      ensures Valid()
      ensures State() == BeginDrag(old(State()))
      ensures pendingSettles == old(pendingSettles) && snapTweens == old(snapTweens) && inertia == old(inertia)
      ensures var stopped := StopCell(old(playing), l, old(snapActiveCell));
              var center := CenterCell(axes, l);
              playing ==
                if dragClip.Some? && center.Some? && HasClip(l, center.value, dragClip.value)
                then stopped[center.value := dragClip.value] else stopped
    {
      isDragging := true;
      snapExecutedForThisStop := false;
      playing := StopCell(playing, l, snapActiveCell);
      var centerCell := GetCenterCell(l);
      if dragClip.Some? && centerCell.Some? && l.cells[centerCell.value].value.childCount > 0 {
        var anim := l.cells[centerCell.value].value.anim;
        if anim.Some? && dragClip.value in anim.value {
          playing := playing[centerCell.value := dragClip.value];
        }
      }
    }

    method SnapToNearestCell(l: Layout)
      modifies this`inertia, this`snapTweens
      ensures var center := CenterCell(axes, l);
              if center.None? then inertia == old(inertia) && snapTweens == old(snapTweens)
              else !inertia &&
                   snapTweens == old(snapTweens) + [SnapTweenFor(axes, l, l.cells[center.value].value, old(inertia))]
    {
      if |l.cells| == 0 {
        return;
      }
      var nearestCell := GetCenterCell(l);
      if nearestCell.Some? {
        var prevInertia := inertia;
        inertia := false;
        snapTweens := snapTweens + [SnapTweenFor(axes, l, l.cells[nearestCell.value].value, prevInertia)];
      }
    }

    method OnEndDrag(l: Layout)
      requires Valid()
      modifies this
      ensures Valid()
      ensures State() == EndDrag(old(State()))
      ensures pendingSettles == old(pendingSettles) && playing == old(playing)
      ensures var center := CenterCell(axes, l);
              if center.None? then inertia == old(inertia) && snapTweens == old(snapTweens)
              else !inertia &&
                   snapTweens == old(snapTweens) + [SnapTweenFor(axes, l, l.cells[center.value].value, old(inertia))]
    {
      isDragging := false;
      SnapToNearestCell(l);
    }

    /** A content tween reaches its end and its completion callback restores inertia. */
    method CompleteSnapTween(i: nat)
      requires i < |snapTweens|
      modifies this`inertia, this`snapTweens
      ensures inertia == old(snapTweens[i].restoreInertia)
      ensures snapTweens == old(snapTweens[..i] + snapTweens[i + 1..])
    {
      inertia := snapTweens[i].restoreInertia;
      snapTweens := snapTweens[..i] + snapTweens[i + 1..];
    }

    /** One frame: `velocity` is the magnitude of the scroll rect's velocity. */
    method Update(l: Layout, velocity: real)
      requires Valid()
      modifies this
      ensures Valid()
      ensures var r := Tick(old(State()), CenterCell(axes, l), velocity < 1.0);
              State() == r.next &&
              pendingSettles == old(pendingSettles) + (if r.scheduled then [CenterCell(axes, l).value] else []) &&
              playing == (if r.changed then StopCell(old(playing), l, old(snapActiveCell)) else old(playing))
      ensures snapTweens == old(snapTweens) && inertia == old(inertia)
    {
      var centerCell := GetCenterCell(l);
      var isStopped := velocity < 1.0;
      var centerChanged := currentCenterCell.Some? && centerCell != currentCenterCell;

      if centerChanged {
        playing := StopCell(playing, l, snapActiveCell);
        snapExecutedForThisStop := false;
      }

      if centerCell.Some? && centerCell == currentCenterCell && isStopped && !isDragging && !snapExecutedForThisStop {
        pendingSettles := pendingSettles + [centerCell.value];
        snapExecutedForThisStop := true;
      }

      currentCenterCell := centerCell;
    }

    /** The delay of pending settle i elapses (PlaySnapAnimationAfterDelay resumes). */
    method ResumeSettle(i: nat, l: Layout)
      requires Valid() && i < |pendingSettles|
      modifies this
      ensures Valid()
      ensures var c := old(pendingSettles[i]);
              State() == Settle(old(State()), c) &&
              pendingSettles == old(pendingSettles[..i] + pendingSettles[i + 1..]) &&
              playing ==
                if !SettleProceeds(old(State()), c) || snapClip.None? || !ValidCell(l, c) || l.cells[c].value.childCount == 0
                then old(playing)
                else
                  var others := old(playing) - StoppedBy(l, c, |l.cells|);
                  if HasClip(l, c, snapClip.value) then others[c := snapClip.value] else others
      ensures snapTweens == old(snapTweens) && inertia == old(inertia)
    {
      var centerCell := pendingSettles[i];
      pendingSettles := pendingSettles[..i] + pendingSettles[i + 1..];

      if Some(centerCell) != currentCenterCell || isDragging {
        return;
      }

      if snapClip.Some? && centerCell < |l.cells| && l.cells[centerCell].Some? && l.cells[centerCell].value.childCount > 0 {
        StopAllCellAnimationsExcept(l, centerCell);
        var anim := l.cells[centerCell].value.anim;
        if anim.Some? && snapClip.value in anim.value {
          playing := playing[centerCell := snapClip.value];
        }
      }

      snapActiveCell := Some(centerCell);
    }

    /** CenterStartCellAnimated after its frame waits: `grid` is the content's
        GridLayoutGroup, `l` the scene after the forced layout rebuild. The
        returned padding is what it writes into the grid. */
    method CenterStartCellAnimated(l: Layout, grid: Option<Grid>, viewportSize: Vec2) returns (padding: Padding)
      modifies this`inertia, this`snapTweens
      ensures grid.None? || |l.cells| == 0 ==>
                padding == NoPadding && inertia == old(inertia) && snapTweens == old(snapTweens)
      ensures grid.Some? && |l.cells| > 0 ==>
                var target := ClampInt(startCenterCellIndex, 0, |l.cells| - 1);
                padding == StartPadding(axes, viewportSize, grid.value.cellSize) &&
                0 <= target < |l.cells| &&
                if l.cells[target].None? then inertia == old(inertia) && snapTweens == old(snapTweens)
                else !inertia && snapTweens == old(snapTweens) + [SnapTweenFor(axes, l, l.cells[target].value, true)]
    {
      padding := NoPadding;
      if grid.None? || |l.cells| == 0 {
        return;
      }
      padding := StartPadding(axes, viewportSize, grid.value.cellSize);

      var targetIndex := ClampInt(startCenterCellIndex, 0, |l.cells| - 1);
      if l.cells[targetIndex].None? {
        return;
      }
      inertia := false;
      snapTweens := snapTweens + [SnapTweenFor(axes, l, l.cells[targetIndex].value, true)];
    }
  }
}
