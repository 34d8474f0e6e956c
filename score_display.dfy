/** ScoreDisplay: when an outside animation ends, a random score is shown once
    and faded in; the reset button clears it and re-arms the one-shot. */
module ScoreDisplay {
  import opened Common

  /** FadeInScore's `duration` and the `timer` it starts from. */
  const FadeDuration: real := 0.2
  const FadeStart: real := 0.1

  /** One resumption of FadeInScore: the alpha it writes and, unless the loop
      has ended, the advanced timer it waits with. */
  datatype FadeStep = FadeStep(alpha: real, next: Option<real>)

  function FadeSegment(timer: real, dt: real): (r: FadeStep)
    ensures 0.0 <= r.alpha <= 1.0
    ensures r.next.None? <==> timer >= FadeDuration
    ensures r.next.None? ==> r.alpha == 1.0
    ensures r.next.Some? ==> r.next.value == timer + dt && (timer >= 0.0 ==> r.alpha == timer / FadeDuration < 1.0)
  {
    if timer < FadeDuration then FadeStep(Lerp(0.0, 1.0, timer / FadeDuration), Some(timer + dt))
    else FadeStep(1.0, None)
  }

  /** The fade never dims: a later timer writes at least the same alpha. */
  lemma FadeAlphaMonotone(t1: real, t2: real, dt1: real, dt2: real)
    requires t1 <= t2
    ensures FadeSegment(t1, dt1).alpha <= FadeSegment(t2, dt2).alpha
  {
    if t2 < FadeDuration {
      assert t1 / FadeDuration <= t2 / FadeDuration;
    }
  }

  /** The first segment, run when the fade starts, writes alpha 0.5. */
  lemma FadeOpensAtHalf(dt: real)
    ensures FadeSegment(FadeStart, dt) == FadeStep(0.5, Some(FadeStart + dt))
  {
  }

  /** One frame over the running fades, in the order they were started: every
      fade writes its alpha (the last writer wins) and finished ones drop out. */
  function FadeFrame(fades: seq<real>, dt: real, alpha: real): (r: (seq<real>, real))
    ensures |r.0| <= |fades|
    ensures fades == [] ==> r == ([], alpha)
    ensures fades != [] ==> 0.0 <= r.1 <= 1.0
    ensures (forall k :: 0 <= k < |fades| ==> fades[k] >= FadeStart) && dt >= 0.0 ==>
              forall k :: 0 <= k < |r.0| ==> r.0[k] >= FadeStart
    decreases |fades|
  {
    if fades == [] then ([], alpha)
    else
      var s := FadeSegment(fades[0], dt);
      var rest := FadeFrame(fades[1..], dt, s.alpha);
      (if s.next.Some? then [s.next.value] + rest.0 else rest.0, rest.1)
  }

  /** A single fade that has run out writes exactly 1 and leaves nothing running. */
  lemma FadeEndsOpaque(timer: real, dt: real, alpha: real)
    requires timer >= FadeDuration
    ensures FadeFrame([timer], dt, alpha) == ([], 1.0)
  {
    assert [timer][1..] == [];
  }

  class ScoreDisplayBehaviour {
    const minScore: int
    const maxScore: int
    const hasResetButton: bool

    var text: string
    var alpha: real
    var scoreShown: bool
    /** The timers of the running FadeInScore coroutines, oldest first. */
    var fades: seq<real>
    var resetListeners: nat

    constructor (minScore: int, maxScore: int, hasResetButton: bool, text: string, alpha: real)
      ensures this.minScore == minScore && this.maxScore == maxScore
      ensures this.hasResetButton == hasResetButton
      ensures this.text == text && this.alpha == alpha && !scoreShown && fades == [] && resetListeners == 0
    {
      this.minScore := minScore;
      this.maxScore := maxScore;
      this.hasResetButton := hasResetButton;
      this.text := text;
      this.alpha := alpha;
      scoreShown := false;
      fades := [];
      resetListeners := 0;
    }

    method Start()
      modifies this`resetListeners
      ensures resetListeners == if hasResetButton then old(resetListeners) + 1 else old(resetListeners)
    {
      if hasResetButton {
        resetListeners := resetListeners + 1;
      }
    }

    /** OnExternalAnimationEnd: the first call after a reset shows the score
        `draw` (Random.Range(minScore, maxScore + 1)) and starts a fade whose first
        segment runs at once with this frame's `dt`; later calls do nothing. */
    method OnExternalAnimationEnd(draw: int, dt: real)
      requires IntRange(draw, minScore, maxScore + 1)
      modifies this`text, this`alpha, this`scoreShown, this`fades
      ensures scoreShown
      ensures old(scoreShown) ==> text == old(text) && alpha == old(alpha) && fades == old(fades)
      ensures !old(scoreShown) ==>
                text == Decimal(draw) && alpha == 0.5 && fades == old(fades) + [FadeStart + dt]
      ensures !old(scoreShown) && minScore <= maxScore ==> minScore <= ParseDecimal(text) <= maxScore
    {
      if !scoreShown {
        ShowRandomScore(draw, dt);
        scoreShown := true;
        DecimalRoundTrip(draw);
      }
    }

    method ShowRandomScore(draw: int, dt: real)
      modifies this`text, this`alpha, this`fades
      ensures text == Decimal(draw) && alpha == 0.5 && fades == old(fades) + [FadeStart + dt]
    {
      text := Decimal(draw);
      alpha := 0.0;
      var s := FadeSegment(FadeStart, dt);
      FadeOpensAtHalf(dt);
      alpha := s.alpha;
      fades := fades + [s.next.value];
    }

    /** One frame: every running fade resumes, in start order. */
    method Frame(dt: real)
      modifies this`alpha, this`fades
      ensures (fades, alpha) == FadeFrame(old(fades), dt, old(alpha))
    {
      ghost var goal := FadeFrame(fades, dt, alpha);
      var i := 0;
      var kept: seq<real> := [];
      while i < |fades|
        invariant 0 <= i <= |fades|
        invariant kept + FadeFrame(fades[i..], dt, alpha).0 == goal.0
        invariant FadeFrame(fades[i..], dt, alpha).1 == goal.1
      {
        var s := FadeSegment(fades[i], dt);
        assert fades[i..][1..] == fades[i + 1..];
        alpha := s.alpha;
        if s.next.Some? {
          kept := kept + [s.next.value];
        }
        i := i + 1;
      }
      assert fades[i..] == [];
      assert kept + [] == kept;
      fades := kept;
    }

    /** ResetScore: clears the text, sets alpha 0.5 and re-arms the one-shot;
        running fades are not stopped. */
    method ResetScore()
      modifies this`text, this`alpha, this`scoreShown
      ensures text == "" && alpha == 0.5 && !scoreShown
    {
      text := "";
      alpha := 0.5;
      scoreShown := false;
    }
  }
}
