/** SliderResetter and SliderResetterAnimator: when a drag on the slider ends
    short of its maximum, the slider eases back to 0 over resetDuration; a drag
    ended at the maximum locks the slider instead. Both run the same
    ResetSliderValue coroutine, modelled once here. */
module SliderReset {
  import opened Common

  /** The `threshold` both behaviours compare the slider's value against. */
  const AtEndThreshold: real := 0.01

  /** A suspended ResetSliderValue: the value it started from and its `time`. */
  datatype ResetJob = ResetJob(start: real, time: real)

  /** One resumption: the value written to the slider and, unless the loop has
      ended, the job still suspended. */
  datatype ResetStep = ResetStep(value: real, next: Option<ResetJob>)

  function ResetSegment(duration: real, curve: real -> real, j: ResetJob, dt: real): (r: ResetStep)
    requires j.time >= 0.0 && dt >= 0.0
    ensures r.next.None? <==> j.time >= duration
    // after the loop the value is exactly 0 ...
    ensures r.next.None? ==> r.value == 0.0
    // ... and inside it every value lies between the start and 0, whatever the curve
    ensures r.next.Some? ==> r.next.value == ResetJob(j.start, j.time + dt) && Between(r.value, j.start, 0.0)
  {
    if j.time < duration then
      var time := j.time + dt;
      ResetStep(Lerp(j.start, 0.0, curve(time / duration)), Some(ResetJob(j.start, time)))
    else ResetStep(0.0, None)
  }

  /** Resumes a reset through frames of the given lengths, stopping when it ends. */
  function ResetRun(duration: real, curve: real -> real, j: ResetJob, dts: seq<real>): (r: ResetStep)
    requires j.time >= 0.0 && dts != [] && forall k :: 0 <= k < |dts| ==> dts[k] >= 0.0
    decreases |dts|
  {
    var s := ResetSegment(duration, curve, j, dts[0]);
    if s.next.None? || |dts| == 1 then s else ResetRun(duration, curve, s.next.value, dts[1..])
  }

  /** However many frames it runs, the slider never leaves the segment between
      the start value and 0. */
  lemma {:induction false} ResetStaysBetween(duration: real, curve: real -> real, j: ResetJob, dts: seq<real>)
    requires j.time >= 0.0 && dts != [] && forall k :: 0 <= k < |dts| ==> dts[k] >= 0.0
    ensures Between(ResetRun(duration, curve, j, dts).value, j.start, 0.0)
    decreases |dts|
  {
    var s := ResetSegment(duration, curve, j, dts[0]);
    if s.next.Some? && |dts| > 1 {
      ResetStaysBetween(duration, curve, s.next.value, dts[1..]);
    }
  }

  /** A reset at `time` >= i*d, with every frame at least `d` long and
      resetDuration <= m*d, is over within m - i + 1 frames, leaving exactly 0. */
  lemma {:induction false} ResetEnds(duration: real, curve: real -> real, j: ResetJob, dts: seq<real>,
                                     d: real, i: nat, m: nat)
    requires d > 0.0 && j.time >= 0.0 && forall k :: 0 <= k < |dts| ==> dts[k] >= d
    requires duration <= m as real * d && i <= m && j.time >= i as real * d
    requires |dts| >= m - i + 1
    ensures ResetRun(duration, curve, j, dts) == ResetStep(0.0, None)
    decreases |dts|
  {
    if j.time < duration {
      StepsLeft(j.time, duration, d, i, m);
      assert j.time + dts[0] >= (i + 1) as real * d;
      ResetEnds(duration, curve, ResetJob(j.start, j.time + dts[0]), dts[1..], d, i + 1, m);
    }
  }

  /** A reset started from any value comes to rest at 0 after m + 1 frames. */
  lemma ResetFromStartEnds(duration: real, curve: real -> real, start: real, dts: seq<real>, d: real, m: nat)
    requires d > 0.0 && forall k :: 0 <= k < |dts| ==> dts[k] >= d
    requires duration <= m as real * d && |dts| >= m + 1
    ensures ResetRun(duration, curve, ResetJob(start, 0.0), dts) == ResetStep(0.0, None)
  {
    ResetEnds(duration, curve, ResetJob(start, 0.0), dts, d, 0, m);
  }

  /** The value is within the threshold of an end of the slider. */
  predicate Near(value: real, end: real) {
    Abs(value - end) < AtEndThreshold
  }

  /** SliderResetter. */
  class SliderResetterBehaviour {
    const maxValue: real
    const resetDuration: real
    const easingCurve: real -> real
    /** `animator` is assigned. */
    const hasAnimator: bool

    var value: real
    var interactable: bool
    /** resetCoroutine, as its suspended state. */
    var reset: Option<ResetJob>
    var calls: seq<AnimatorCall>

    predicate Valid()
      reads this
    {
      reset.Some? ==> reset.value.time >= 0.0
    }

    constructor (maxValue: real, resetDuration: real, easingCurve: real -> real, hasAnimator: bool, value: real)
      ensures this.maxValue == maxValue && this.resetDuration == resetDuration
      ensures this.easingCurve == easingCurve && this.hasAnimator == hasAnimator
      ensures this.value == value && interactable && reset.None? && calls == [] && Valid()
    {
      this.maxValue := maxValue;
      this.resetDuration := resetDuration;
      this.easingCurve := easingCurve;
      this.hasAnimator := hasAnimator;
      this.value := value;
      interactable := true;
      reset := None;
      calls := [];
    }

    /** OnEndDrag: at the maximum the slider is locked and nothing else happens;
        otherwise a positive value starts a new reset (the old one is stopped),
        whose first segment runs in this frame, and fires "Reset"; a value at or
        below 0 does nothing. */
    method OnEndDrag(dt: real)
      requires Valid() && dt >= 0.0
      modifies this`value, this`interactable, this`reset, this`calls
      ensures Valid()
      ensures Near(old(value), maxValue) ==>
                !interactable && value == old(value) && reset == old(reset) && calls == old(calls)
      ensures !Near(old(value), maxValue) && old(value) > 0.0 ==>
                var s := ResetSegment(resetDuration, easingCurve, ResetJob(old(value), 0.0), dt);
                value == s.value && reset == s.next && interactable == old(interactable) &&
                calls == old(calls) + (if hasAnimator then [SetTrigger("Reset")] else [])
      ensures !Near(old(value), maxValue) && old(value) <= 0.0 ==>
                value == old(value) && interactable == old(interactable) && reset == old(reset) && calls == old(calls)
    {
      if Abs(value - maxValue) < AtEndThreshold {
        interactable := false;
        return;
      }
      if value > 0.0 {
        reset := None;
        var s := ResetSegment(resetDuration, easingCurve, ResetJob(value, 0.0), dt);
        value := s.value;
        reset := s.next;
        if hasAnimator {
          calls := calls + [SetTrigger("Reset")];
        }
      }
    }

    /** One frame: the running reset resumes. */
    method Frame(dt: real)
      requires Valid() && dt >= 0.0
      modifies this`value, this`reset
      ensures Valid()
      ensures old(reset).None? ==> value == old(value) && reset.None?
      ensures old(reset).Some? ==>
                var s := ResetSegment(resetDuration, easingCurve, old(reset).value, dt);
                value == s.value && reset == s.next
    {
      if reset.Some? {
        var s := ResetSegment(resetDuration, easingCurve, reset.value, dt);
        value := s.value;
        reset := s.next;
      }
    }
  }

  /** SliderResetterAnimator: the same reset, with "Dragging" kept on the
      animator and separate triggers for a release at the maximum and at the
      minimum. */
  class SliderResetterAnimatorBehaviour {
    const minValue: real
    const maxValue: real
    const resetDuration: real
    const easingCurve: real -> real
    const hasAnimator: bool

    var value: real
    var interactable: bool
    var reset: Option<ResetJob>
    var calls: seq<AnimatorCall>

    predicate Valid()
      reads this
    {
      reset.Some? ==> reset.value.time >= 0.0
    }

    constructor (minValue: real, maxValue: real, resetDuration: real, easingCurve: real -> real,
                 hasAnimator: bool, value: real)
      ensures this.minValue == minValue && this.maxValue == maxValue && this.resetDuration == resetDuration
      ensures this.easingCurve == easingCurve && this.hasAnimator == hasAnimator
      ensures this.value == value && interactable && reset.None? && calls == [] && Valid()
    {
      this.minValue := minValue;
      this.maxValue := maxValue;
      this.resetDuration := resetDuration;
      this.easingCurve := easingCurve;
      this.hasAnimator := hasAnimator;
      this.value := value;
      interactable := true;
      reset := None;
      calls := [];
    }

    /** The calls `animator?.` makes: none without an animator. */
    function Sent(c: seq<AnimatorCall>): seq<AnimatorCall>
      reads this
    {
      if hasAnimator then c else []
    }

    method OnBeginDrag()
      modifies this`calls
      ensures calls == old(calls) + Sent([SetBool("Dragging", true)])
    {
      if hasAnimator {
        calls := calls + [SetBool("Dragging", true)];
      }
    }

    /** OnEndDrag: "Dragging" goes off; then the maximum is tested before the
        minimum: at the maximum the slider is locked and "Max" fires, at the
        minimum "Zero" fires, and anywhere else a new reset starts (the old one
        stopped) and "Reset" fires. */
    method OnEndDrag(dt: real)
      requires Valid() && dt >= 0.0
      modifies this`value, this`interactable, this`reset, this`calls
      ensures Valid()
      ensures Near(old(value), maxValue) ==>
                !interactable && value == old(value) && reset == old(reset) &&
                calls == old(calls) + Sent([SetBool("Dragging", false), SetTrigger("Max")])
      ensures !Near(old(value), maxValue) && Near(old(value), minValue) ==>
                interactable == old(interactable) && value == old(value) && reset == old(reset) &&
                calls == old(calls) + Sent([SetBool("Dragging", false), SetTrigger("Zero")])
      ensures !Near(old(value), maxValue) && !Near(old(value), minValue) ==>
                var s := ResetSegment(resetDuration, easingCurve, ResetJob(old(value), 0.0), dt);
                value == s.value && reset == s.next && interactable == old(interactable) &&
                calls == old(calls) + Sent([SetBool("Dragging", false), SetTrigger("Reset")])
    {
      if hasAnimator {
        calls := calls + [SetBool("Dragging", false)];
      }
      var v := value;
      var isAtMax := Abs(v - maxValue) < AtEndThreshold;
      var isAtMin := Abs(v - minValue) < AtEndThreshold;
      if isAtMax {
        interactable := false;
        if hasAnimator {
          calls := calls + [SetTrigger("Max")];
        }
        return;
      }
      if isAtMin {
        if hasAnimator {
          calls := calls + [SetTrigger("Zero")];
        }
        return;
      }
      reset := None;
      var s := ResetSegment(resetDuration, easingCurve, ResetJob(value, 0.0), dt);
      value := s.value;
      reset := s.next;
      if hasAnimator {
        calls := calls + [SetTrigger("Reset")];
      }
    }

    /** One frame: the running reset resumes. */
    method Frame(dt: real)
      requires Valid() && dt >= 0.0
      modifies this`value, this`reset
      ensures Valid()
      ensures old(reset).None? ==> value == old(value) && reset.None?
      ensures old(reset).Some? ==>
                var s := ResetSegment(resetDuration, easingCurve, old(reset).value, dt);
                value == s.value && reset == s.next
    {
      if reset.Some? {
        var s := ResetSegment(resetDuration, easingCurve, reset.value, dt);
        value := s.value;
        reset := s.next;
      }
    }
  }
}
