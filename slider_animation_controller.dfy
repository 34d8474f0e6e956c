/** SliderAnimatorController: a slider change large enough fires "Increase" or
    "Decrease" on the animator, then further changes are ignored until the
    animation has had animationDuration seconds to play. */
module SliderAnimationController {
  import opened Common

  /** The behaviour's fields, the suspended WaitForAnimationEnd (the time it
      has waited so far) and the calls made on the animator. */
  datatype Gate = Gate(previousValue: real, isAnimating: bool, waited: Option<real>, calls: seq<AnimatorCall>)

  /** Both triggers are reset, then the one matching the direction of the
      change (if any) is set. */
  function Triggers(previousValue: real, newValue: real): (r: seq<AnimatorCall>)
    ensures |r| >= 2 && r[..2] == [ResetTrigger("Increase"), ResetTrigger("Decrease")]
    ensures SetTrigger("Increase") in r <==> newValue > previousValue
    ensures SetTrigger("Decrease") in r <==> newValue < previousValue
  {
    var resets := [ResetTrigger("Increase"), ResetTrigger("Decrease")];
    if newValue > previousValue then resets + [SetTrigger("Increase")]
    else if newValue < previousValue then resets + [SetTrigger("Decrease")]
    else resets
  }

  /** OnSliderValueChanged, including the synchronous start of
      WaitForAnimationEnd (it sets isAnimating and waits). */
  function ValueChanged(g: Gate, newValue: real, minChangeThreshold: real): (r: Gate)
    ensures |g.calls| <= |r.calls| && r.calls[..|g.calls|] == g.calls
    ensures g.isAnimating ==> r == g
  {
    assert (g.calls + Triggers(g.previousValue, newValue))[..|g.calls|] == g.calls;
    if g.isAnimating || Abs(newValue - g.previousValue) < minChangeThreshold then g
    else Gate(newValue, true, Some(0.0), g.calls + Triggers(g.previousValue, newValue))
  }

  /** One frame of the WaitForSeconds(animationDuration): once the time waited
      reaches the duration the coroutine resumes and clears isAnimating. */
  function Tick(g: Gate, dt: real, animationDuration: real): (r: Gate)
    ensures r.previousValue == g.previousValue && r.calls == g.calls
    ensures r.waited.Some? ==> g.waited.Some? && r.waited.value < animationDuration
  {
    if g.waited.None? then g
    else if g.waited.value + dt >= animationDuration then g.(isAnimating := false, waited := None)
    else g.(waited := Some(g.waited.value + dt))
  }

  /** isAnimating is set exactly while the wait is running. */
  predicate Inv(g: Gate) {
    g.isAnimating <==> g.waited.Some?
  }

  /** While the animation plays, a change is ignored and previousValue kept. */
  lemma IgnoredWhileAnimating(g: Gate, newValue: real, minChangeThreshold: real)
    requires g.isAnimating
    ensures ValueChanged(g, newValue, minChangeThreshold) == g
  {
  }

  /** A change is accepted exactly when nothing plays and it is at least the
      threshold; it then records the new value, fires the trigger for its
      direction and starts the wait. Otherwise nothing changes at all. */
  lemma AcceptedChange(g: Gate, newValue: real, minChangeThreshold: real)
    requires Inv(g)
    ensures var r := ValueChanged(g, newValue, minChangeThreshold);
            (r != g <==> !g.isAnimating && Abs(newValue - g.previousValue) >= minChangeThreshold) &&
            (r != g ==> r.previousValue == newValue && r.isAnimating && r.waited == Some(0.0) &&
                        r.calls[..|g.calls|] == g.calls &&
                        (SetTrigger("Increase") in r.calls[|g.calls|..] <==> newValue > g.previousValue) &&
                        (SetTrigger("Decrease") in r.calls[|g.calls|..] <==> newValue < g.previousValue))
  {
    var r := ValueChanged(g, newValue, minChangeThreshold);
    if !g.isAnimating && Abs(newValue - g.previousValue) >= minChangeThreshold {
      var t := Triggers(g.previousValue, newValue);
      assert r.calls[|g.calls|..] == t;
      assert |r.calls| > |g.calls|;
    }
  }

  lemma ValueChangedKeepsInv(g: Gate, newValue: real, minChangeThreshold: real)
    requires Inv(g)
    ensures Inv(ValueChanged(g, newValue, minChangeThreshold))
  {
  }

  lemma TickKeepsInv(g: Gate, dt: real, animationDuration: real)
    requires Inv(g)
    ensures Inv(Tick(g, dt, animationDuration))
  {
  }

  /** Frames of the given lengths, one after another. */
  function Ticks(g: Gate, dts: seq<real>, animationDuration: real): Gate
    decreases |dts|
  {
    if dts == [] then g else Ticks(Tick(g, dts[0], animationDuration), dts[1..], animationDuration)
  }

  /** The gate opens again after frames of at least `d`: with waited >= i*d
      and animationDuration <= m*d, m - i frames (and at least one) suffice. */
  lemma {:induction false} GateReopens(g: Gate, dts: seq<real>, animationDuration: real, d: real, i: nat, m: nat)
    requires Inv(g) && g.waited.Some? && d > 0.0 && forall k :: 0 <= k < |dts| ==> dts[k] >= d
    requires g.waited.value >= i as real * d && i <= m && animationDuration <= m as real * d
    requires |dts| >= m - i && dts != []
    ensures !Ticks(g, dts, animationDuration).isAnimating
    ensures Ticks(g, dts, animationDuration).previousValue == g.previousValue
    decreases |dts|
  {
    var w := g.waited.value + dts[0];
    var t := Tick(g, dts[0], animationDuration);
    if w >= animationDuration {
      TicksOfOpen(t, dts[1..], animationDuration);
    } else {
      assert w >= (i + 1) as real * d;
      StepsLeft(w, animationDuration, d, i + 1, m);
      GateReopens(t, dts[1..], animationDuration, d, i + 1, m);
    }
  }

  /** Frames do nothing to a gate with no wait running. */
  lemma {:induction false} TicksOfOpen(g: Gate, dts: seq<real>, animationDuration: real)
    requires Inv(g) && g.waited.None?
    ensures Ticks(g, dts, animationDuration) == g
    decreases |dts|
  {
    if dts != [] {
      TicksOfOpen(g, dts[1..], animationDuration);
    }
  }

  class SliderAnimatorController {
    const minChangeThreshold: real
    const animationDuration: real

    var previousValue: real
    var isAnimating: bool
    /** The running WaitForAnimationEnd: how long it has waited. */
    var waited: Option<real>
    var calls: seq<AnimatorCall>

    function State(): Gate
      reads this
    {
      Gate(previousValue, isAnimating, waited, calls)
    }

    constructor (minChangeThreshold: real, animationDuration: real)
      ensures this.minChangeThreshold == minChangeThreshold && this.animationDuration == animationDuration
      ensures !isAnimating && waited.None? && calls == [] && Inv(State())
    {
      this.minChangeThreshold := minChangeThreshold;
      this.animationDuration := animationDuration;
      previousValue := 0.0;
      isAnimating := false;
      waited := None;
      calls := [];
    }

    /** Start: remember the slider's value. */
    method Start(sliderValue: real)
      modifies this`previousValue
      ensures previousValue == sliderValue
    {
      previousValue := sliderValue;
    }

    method OnSliderValueChanged(newValue: real)
      requires Inv(State())
      modifies this`previousValue, this`isAnimating, this`waited, this`calls
      ensures State() == ValueChanged(old(State()), newValue, minChangeThreshold)
      ensures Inv(State())
    {
      if isAnimating {
        return;
      }
      if Abs(newValue - previousValue) < minChangeThreshold {
        return;
      }
      calls := calls + [ResetTrigger("Increase"), ResetTrigger("Decrease")];
      if newValue > previousValue {
        calls := calls + [SetTrigger("Increase")];
      } else if newValue < previousValue {
        calls := calls + [SetTrigger("Decrease")];
      }
      previousValue := newValue;
      isAnimating := true;
      waited := Some(0.0);
    }

    /** One frame of length dt. */
    method Frame(dt: real)
      requires Inv(State())
      modifies this`isAnimating, this`waited
      ensures State() == Tick(old(State()), dt, animationDuration)
      ensures Inv(State())
    {
      if waited.Some? {
        if waited.value + dt >= animationDuration {
          isAnimating := false;
          waited := None;
        } else {
          waited := Some(waited.value + dt);
        }
      }
    }
  }
}
