/** SliderToAnimatorSnapBack: while the pointer holds the slider its value is
    forwarded to the animator's "SliderValue"; on release the slider stays
    only if it is (approximately) at 1, and otherwise snaps back to 0. */
module SliderToAnimatorSnapBack {
  import opened Common

  /** The slider's value, isDragging, and the values sent to "SliderValue". */
  datatype SnapState = SnapState(value: real, dragging: bool, sent: seq<real>)

  /** The state Awake leaves: a slider on [0, 1] at 0, nothing sent yet. */
  const Initial: SnapState := SnapState(0.0, false, [])

  /** The slider moved to v (within its range [0, 1]) and told OnSliderChanged. */
  function Moved(s: SnapState, v: real): (r: SnapState)
    ensures |s.sent| <= |r.sent| <= |s.sent| + 1 && r.sent[..|s.sent|] == s.sent
  {
    assert (s.sent + [v])[..|s.sent|] == s.sent;
    s.(value := v, sent := if s.dragging then s.sent + [v] else s.sent)
  }

  function PointerDown(s: SnapState): (r: SnapState)
    ensures r.dragging && r.value == s.value && r.sent == s.sent
  {
    s.(dragging := true)
  }

  /** OnPointerUp: at 1 the value stays and 1 is sent; otherwise the slider is
      set to 0 (its change listener then sees isDragging off) and 0 is sent. */
  function PointerUp(s: SnapState): (r: SnapState)
    ensures !r.dragging && |r.sent| == |s.sent| + 1 && r.sent[..|s.sent|] == s.sent
    ensures r.value == 0.0 || Approximately(r.value, 1.0)
  {
    if Approximately(s.value, 1.0) then SnapState(s.value, false, s.sent + [1.0])
    else SnapState(0.0, false, s.sent + [0.0])
  }

  /** The animator's parameter agrees with the slider: the last value sent is
      (approximately) the value the slider shows. */
  predicate InSync(s: SnapState) {
    |s.sent| > 0 && Approximately(s.value, s.sent[|s.sent| - 1])
  }

  lemma ApproximatelyReflexive(a: real)
    ensures Approximately(a, a)
  {
  }

  /** Slider movement reaches the animator only while the pointer is down. */
  lemma MovesSentOnlyWhileDragging(s: SnapState, v: real)
    ensures var r := Moved(s, v);
            r.value == v && r.dragging == s.dragging &&
            (r.sent == s.sent <==> !s.dragging) && (s.dragging ==> r.sent == s.sent + [v])
  {
    if s.dragging {
      assert |Moved(s, v).sent| == |s.sent| + 1;
    }
  }

  /** While dragging, every move keeps the animator in step with the slider. */
  lemma DraggingKeepsInSync(s: SnapState, v: real)
    requires s.dragging
    ensures InSync(Moved(s, v))
  {
    ApproximatelyReflexive(v);
  }

  /** A release always leaves the slider at rest and the animator in step with
      it: at (about) 1 both say 1, anywhere else both say 0. */
  lemma ReleaseSettles(s: SnapState)
    ensures var r := PointerUp(s);
            !r.dragging && InSync(r) && r.sent[..|s.sent|] == s.sent &&
            (Approximately(s.value, 1.0) ==> r.value == s.value && r.sent[|s.sent|] == 1.0) &&
            (!Approximately(s.value, 1.0) ==> r.value == 0.0 && r.sent[|s.sent|] == 0.0)
  {
    ApproximatelyReflexive(0.0);
  }

  /** After a release, moving the slider again changes nothing on the animator
      until the pointer is down again. */
  lemma ReleasedIgnoresMoves(s: SnapState, v: real)
    ensures Moved(PointerUp(s), v).sent == PointerUp(s).sent
  {
  }

  class SliderToAnimatorSnapBackBehaviour {
    var value: real
    var isDragging: bool
    /** The values passed to animator.SetFloat("SliderValue", ...). */
    var sent: seq<real>

    function State(): SnapState
      reads this
    {
      SnapState(value, isDragging, sent)
    }

    /** The state once Awake has built the slider. */
    constructor ()
      ensures State() == Initial
    {
      value := 0.0;
      isDragging := false;
      sent := [];
    }

    /** Start: forwards the slider's value, which does nothing before a drag. */
    method Start()
      modifies this`sent
      ensures State() == Moved(old(State()), old(value))
    {
      OnSliderChanged(value);
    }

    method OnSliderChanged(v: real)
      modifies this`sent
      ensures sent == if isDragging then old(sent) + [v] else old(sent)
    {
      if isDragging {
        sent := sent + [v];
      }
    }

    /** The user moves the slider to v: the slider updates and notifies,
        which onValueChanged does only when the value changes. */
    method SliderMoved(v: real)
      requires 0.0 <= v <= 1.0
      modifies this`value, this`sent
      ensures State() == if v == old(value) then old(State()) else Moved(old(State()), v)
    {
      if v != value {
        value := v;
        OnSliderChanged(v);
      }
    }

    method OnPointerDown()
      modifies this`isDragging
      ensures State() == PointerDown(old(State()))
    {
      isDragging := true;
    }

    method OnPointerUp()
      modifies this`value, this`isDragging, this`sent
      ensures State() == PointerUp(old(State()))
    {
      isDragging := false;
      if Approximately(value, 1.0) {
        sent := sent + [1.0];
      } else {
        if value != 0.0 {
          value := 0.0;
          OnSliderChanged(0.0);
        }
        sent := sent + [0.0];
      }
    }
  }
}
