/** ScrollDirectionAnimator: while the user drags the scroll rect, the drag
    delta picks one of four directions and that direction's clip is played on
    every child of the content. */
module ScrollDirectionAnimator {
  import opened Common

  datatype Direction = Left | Right | Up | Down

  /** The Animation component of one child, as PlayOnChildren sees it. */
  datatype AnimState = AnimState(clips: set<string>, clip: Option<string>, playing: bool)

  /** True when the length of `d` is below `m` (compared on squares: no root). */
  predicate MagnitudeBelow(d: Vec2, m: real) {
    m > 0.0 && d.x * d.x + d.y * d.y < m * m
  }

  /** The direction one drag event selects, None when the threshold swallows it. */
  function Classify(delta: Vec2, enableThreshold: bool, minDragDistance: real): (r: Option<Direction>)
    ensures r.None? <==> enableThreshold && MagnitudeBelow(delta, minDragDistance)
    ensures r == Some(Right) <==> r.Some? && Abs(delta.x) > Abs(delta.y) && delta.x > 0.0
    ensures r == Some(Left) <==> r.Some? && Abs(delta.x) > Abs(delta.y) && delta.x <= 0.0
    ensures r == Some(Up) <==> r.Some? && Abs(delta.x) <= Abs(delta.y) && delta.y > 0.0
    ensures r == Some(Down) <==> r.Some? && Abs(delta.x) <= Abs(delta.y) && delta.y <= 0.0
  {
    if enableThreshold && MagnitudeBelow(delta, minDragDistance) then None
    else if Abs(delta.x) > Abs(delta.y) then (if delta.x > 0.0 then Some(Right) else Some(Left))
    else if delta.y > 0.0 then Some(Up)
    else Some(Down)
  }

  function Opposite(d: Direction): Direction {
    match d
    case Left => Right
    case Right => Left
    case Up => Down
    case Down => Up
  }

  /** Reversing a drag whose dominant component is non-zero reverses the
      direction; the threshold does not care about the sign. */
  lemma ReversedDragReversesDirection(delta: Vec2, enableThreshold: bool, minDragDistance: real)
    requires Abs(delta.x) > Abs(delta.y) ==> delta.x != 0.0
    requires Abs(delta.x) <= Abs(delta.y) ==> delta.y != 0.0
    ensures var r := Classify(delta, enableThreshold, minDragDistance);
            var r' := Classify(Vec2(-delta.x, -delta.y), enableThreshold, minDragDistance);
            (r.None? <==> r'.None?) && (r.Some? ==> r' == Some(Opposite(r.value)))
  {
    var n := Vec2(-delta.x, -delta.y);
    assert n.x * n.x + n.y * n.y == delta.x * delta.x + delta.y * delta.y;
  }

  /** A zero delta with the threshold off reads as a drag down. */
  lemma StillDragIsDown()
    ensures Classify(Zero2, false, 50.0) == Some(Down)
  {
  }

  /** What PlayOnChildren does to one child: add an Animation if missing,
      register the clip under its name if missing, make it the default and
      play it. */
  function Played(a: Option<AnimState>, clipName: string): (r: Option<AnimState>)
    ensures r.Some? && r.value.clip == Some(clipName) && r.value.playing
    ensures clipName in r.value.clips
    ensures a.Some? ==> r.value.clips == a.value.clips + {clipName}
    ensures a.None? ==> r.value.clips == {clipName}
  {
    var clips := if a.Some? then a.value.clips else {};
    Some(AnimState(clips + {clipName}, Some(clipName), true))
  }

  /** Playing the same clip twice is playing it once. */
  lemma PlayedIdempotent(a: Option<AnimState>, clipName: string)
    ensures Played(Played(a, clipName), clipName) == Played(a, clipName)
  {
    assert Played(a, clipName).value.clips + {clipName} == Played(a, clipName).value.clips;
  }

  class ScrollDirectionAnimatorBehaviour {
    const clipLeft: Option<string>
    const clipRight: Option<string>
    const clipUp: Option<string>
    const clipDown: Option<string>
    const enableThreshold: bool
    const minDragDistance: real

    /** The content transform (an identifier; None when unassigned). */
    var content: Option<nat>
    /** The Animation of each child of the content. */
    var children: seq<Option<AnimState>>

    constructor (clipLeft: Option<string>, clipRight: Option<string>, clipUp: Option<string>,
                 clipDown: Option<string>, enableThreshold: bool, minDragDistance: real,
                 content: Option<nat>, children: seq<Option<AnimState>>)
      ensures this.clipLeft == clipLeft && this.clipRight == clipRight
      ensures this.clipUp == clipUp && this.clipDown == clipDown
      ensures this.enableThreshold == enableThreshold && this.minDragDistance == minDragDistance
      ensures this.content == content && this.children == children
    {
      this.clipLeft := clipLeft;
      this.clipRight := clipRight;
      this.clipUp := clipUp;
      this.clipDown := clipDown;
      this.enableThreshold := enableThreshold;
      this.minDragDistance := minDragDistance;
      this.content := content;
      this.children := children;
    }

    function ClipFor(d: Direction): Option<string>
      reads this
    {
      match d
      case Left => clipLeft
      case Right => clipRight
      case Up => clipUp
      case Down => clipDown
    }

    /** Awake: an unassigned content falls back to the scroll rect's content. */
    method Awake(scrollRectContent: Option<nat>)
      modifies this`content
      ensures content == if old(content).None? then scrollRectContent else old(content)
    {
      if content.None? {
        content := scrollRectContent;
      }
    }

    /** PlayOnChildren: nothing without a clip. With a clip but no content the
        `foreach` over the content throws a NullReferenceException before
        touching any child (`thrown`); otherwise every child plays the clip
        and nothing else changes. */
    method PlayOnChildren(clip: Option<string>) returns (thrown: bool)
      modifies this`children
      ensures thrown <==> clip.Some? && content.None?
      ensures clip.None? || content.None? ==> children == old(children)
      ensures clip.Some? && content.Some? ==>
                |children| == |old(children)| &&
                forall i :: 0 <= i < |children| ==> children[i] == Played(old(children[i]), clip.value)
    {
      if clip.None? {
        return false;
      }
      if content.None? {
        return true;
      }
      var i := 0;
      while i < |children|
        invariant 0 <= i <= |children| && |children| == |old(children)|
        invariant forall k :: 0 <= k < i ==> children[k] == Played(old(children[k]), clip.value)
        invariant forall k :: i <= k < |children| ==> children[k] == old(children[k])
      {
        children := children[i := Played(children[i], clip.value)];
        i := i + 1;
      }
      return false;
    }

    /** OnDrag: the classified direction's clip is played on the children;
        `thrown` when PlayOnChildren throws for want of a content. */
    method OnDrag(delta: Vec2) returns (thrown: bool)
      modifies this`children
      ensures var d := Classify(delta, enableThreshold, minDragDistance);
              thrown <==> d.Some? && ClipFor(d.value).Some? && content.None?
      ensures var d := Classify(delta, enableThreshold, minDragDistance);
              if d.None? || ClipFor(d.value).None? || content.None? then children == old(children)
              else |children| == |old(children)| &&
                   forall i :: 0 <= i < |children| ==> children[i] == Played(old(children[i]), ClipFor(d.value).value)
    {
      thrown := false;
      if enableThreshold && MagnitudeBelow(delta, minDragDistance) {
        return;
      }
      if Abs(delta.x) > Abs(delta.y) {
        if delta.x > 0.0 {
          thrown := PlayOnChildren(clipRight);
        } else {
          thrown := PlayOnChildren(clipLeft);
        }
      } else {
        if delta.y > 0.0 {
          thrown := PlayOnChildren(clipUp);
        } else {
          thrown := PlayOnChildren(clipDown);
        }
      }
    }
  }
}
