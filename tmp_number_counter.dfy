/** TMPNumberCounter: counts a text from one integer to another along a speed
    curve, rewriting the text only when the rounded value changes and pulsing
    the text's scale on every change. Both coroutines are pending records that
    a frame resumes. */
module TmpNumberCounter {
  import opened Common

  /** The inspector settings the coroutines read. */
  datatype Settings = Settings(
    duration: real, curve: real -> real, useCommaFormat: bool,
    useScaleAnimation: bool, scaleFrom: Vec3, scaleTo: Vec3,
    scaleDuration: real, scaleCurve: real -> real)

  /** FormatNumber: "N0" (thousands grouped) or the plain ToString(). */
  function FormatNumber(useCommaFormat: bool, n: int): (s: string)
    ensures !useCommaFormat ==> s == Decimal(n)
    ensures useCommaFormat ==> WithoutCommas(s) == Decimal(n)
  {
    if useCommaFormat then GroupedDecimalMatchesDecimal(n); GroupedDecimal(n) else Decimal(n)
  }

  /** The plain decimal text holds no separator. */
  lemma DecimalHasNoCommas(n: int)
    ensures WithoutCommas(Decimal(n)) == Decimal(n)
  {
    if n < 0 {
      WithoutCommasAppend("-", NatDigits(-n));
      WithoutCommasOfDigits(NatDigits(-n));
      assert WithoutCommas("-") == "-" by {
        assert "-"[1..] == [];
      }
    } else {
      WithoutCommasOfDigits(NatDigits(n));
    }
  }

  /** Either format reads back as the number's plain decimal text once the
      separators are dropped (and that text parses back, see DecimalRoundTrip). */
  lemma FormatReadsBack(useCommaFormat: bool, n: int)
    ensures WithoutCommas(FormatNumber(useCommaFormat, n)) == Decimal(n)
  {
    DecimalHasNoCommas(n);
  }

  /** A suspended CountRoutine: its arguments, `elapsed` and `lastValue`. */
  datatype CountJob = CountJob(from: int, to: int, elapsed: real, lastValue: int)

  /** What one resumption of CountRoutine does: the text it writes (if any),
      whether it starts a scale pulse, and the job still suspended (None once
      the routine has returned). */
  datatype CountStep = CountStep(text: Option<string>, pulse: bool, next: Option<CountJob>)

  predicate BetweenInt(v: int, a: int, b: int) {
    (a <= v <= b) || (b <= v <= a)
  }

  function CountSegment(st: Settings, j: CountJob, dt: real): (r: CountStep)
    requires j.elapsed >= 0.0 && dt >= 0.0
    // the loop goes on while elapsed < duration; every value it displays lies
    // between `from` and `to` and is displayed only when it differs from the last
    ensures r.next.Some? <==> j.elapsed < st.duration
    ensures r.next.Some? ==>
              var n := r.next.value;
              n.from == j.from && n.to == j.to && n.elapsed == j.elapsed + dt &&
              BetweenInt(n.lastValue, j.from, j.to) &&
              (r.text.Some? <==> n.lastValue != j.lastValue) &&
              (r.text.Some? ==> r.text.value == FormatNumber(st.useCommaFormat, n.lastValue)) &&
              (r.pulse <==> r.text.Some? && st.useScaleAnimation)
    // after the loop the text is always `to`, with one last pulse only if `to`
    // was not on display yet
    ensures r.next.None? ==> r.text == Some(FormatNumber(st.useCommaFormat, j.to))
    ensures r.next.None? ==> (r.pulse <==> st.useScaleAnimation && j.to != j.lastValue)
  {
    if j.elapsed < st.duration then
      var e := j.elapsed + dt;
      var t := Clamp01(e / st.duration);
      var x := Lerp(j.from as real, j.to as real, st.curve(t));
      RoundToIntBetween(x, j.from, j.to);
      var current := RoundToInt(x);
      if current != j.lastValue then
        CountStep(Some(FormatNumber(st.useCommaFormat, current)), st.useScaleAnimation,
                  Some(CountJob(j.from, j.to, e, current)))
      else CountStep(None, false, Some(CountJob(j.from, j.to, e, j.lastValue)))
    else
      CountStep(Some(FormatNumber(st.useCommaFormat, j.to)), st.useScaleAnimation && j.to != j.lastValue, None)
  }

  /** Once the curve has reached its end the displayed value is `to`. */
  lemma CountReachesTarget(st: Settings, j: CountJob, dt: real)
    requires j.elapsed >= 0.0 && dt >= 0.0 && j.elapsed < st.duration
    requires st.curve(Clamp01((j.elapsed + dt) / st.duration)) >= 1.0
    ensures CountSegment(st, j, dt).next.value.lastValue == j.to
  {
    RoundToIntOfInt(j.to);
  }

  datatype ScalePhase = Grow | Shrink

  /** A suspended ScaleAnimationCoroutine: which loop it is in and its `time`. */
  datatype ScaleJob = ScaleJob(phase: ScalePhase, time: real)

  datatype ScaleStep = ScaleStep(scale: Vec3, next: Option<ScaleJob>)

  function LerpUnclamped3(a: Vec3, b: Vec3, t: real): Vec3 {
    Vec3(LerpUnclamped(a.x, b.x, t), LerpUnclamped(a.y, b.y, t), LerpUnclamped(a.z, b.z, t))
  }

  /** The shrinking loop from `time`: a step toward scaleFrom, or scaleFrom itself
      once the loop ends. */
  function ShrinkSegment(st: Settings, time: real, dt: real): (r: ScaleStep)
    requires time >= 0.0 && dt >= 0.0
    ensures r.next.None? <==> time >= st.scaleDuration
    ensures r.next.None? ==> r.scale == st.scaleFrom
    ensures r.next.Some? ==> r.next.value == ScaleJob(Shrink, time + dt)
  {
    if time < st.scaleDuration then
      var t := time + dt;
      ScaleStep(LerpUnclamped3(st.scaleTo, st.scaleFrom, st.scaleCurve(Clamp01(t / st.scaleDuration))),
                Some(ScaleJob(Shrink, t)))
    else ScaleStep(st.scaleFrom, None)
  }

  /** One resumption of ScaleAnimationCoroutine. When the growing loop ends,
      the shrinking loop starts in the same resumption. */
  function ScaleSegment(st: Settings, j: ScaleJob, dt: real): (r: ScaleStep)
    requires j.time >= 0.0 && dt >= 0.0
    ensures r.next.None? ==> r.scale == st.scaleFrom
    ensures r.next.None? <==> j.time >= st.scaleDuration && (j.phase == Shrink || st.scaleDuration <= 0.0)
    ensures r.next.Some? ==> r.next.value.time >= 0.0
  {
    match j.phase
    case Grow =>
      if j.time < st.scaleDuration then
        var t := j.time + dt;
        ScaleStep(LerpUnclamped3(st.scaleFrom, st.scaleTo, st.scaleCurve(Clamp01(t / st.scaleDuration))),
                  Some(ScaleJob(Grow, t)))
      else ShrinkSegment(st, 0.0, dt)
    case Shrink => ShrinkSegment(st, j.time, dt)
  }

  /** Resumes a scale job through frames of the given lengths. */
  function ScaleRun(st: Settings, j: ScaleJob, dts: seq<real>): (r: ScaleStep)
    requires j.time >= 0.0 && forall k :: 0 <= k < |dts| ==> dts[k] >= 0.0
    decreases |dts|
  {
    var s := ScaleSegment(st, j, if dts == [] then 0.0 else dts[0]);
    if dts == [] || s.next.None? then s else ScaleRun(st, s.next.value, dts[1..])
  }

  /** A shrinking loop at `time` >= i*d, with every frame at least `d` long and
      scaleDuration <= m*d, ends within m - i + 1 frames at scaleFrom. */
  lemma {:induction false} ShrinkEnds(st: Settings, time: real, dts: seq<real>, d: real, i: nat, m: nat)
    requires d > 0.0 && time >= 0.0 && forall k :: 0 <= k < |dts| ==> dts[k] >= d
    requires st.scaleDuration <= m as real * d && i <= m && time >= i as real * d
    requires |dts| >= m - i + 1
    ensures ScaleRun(st, ScaleJob(Shrink, time), dts) == ScaleStep(st.scaleFrom, None)
    decreases |dts|
  {
    if time < st.scaleDuration {
      StepsLeft(time, st.scaleDuration, d, i, m);
      assert time + dts[0] >= (i + 1) as real * d;
      ShrinkEnds(st, time + dts[0], dts[1..], d, i + 1, m);
    }
  }

  /** The growing loop at `time` >= i*d likewise ends, then the shrinking loop:
      at most m - i + 1 + m frames in all. */
  lemma {:induction false} GrowThenShrinkEnds(st: Settings, time: real, dts: seq<real>, d: real, i: nat, m: nat)
    requires d > 0.0 && time >= 0.0 && forall k :: 0 <= k < |dts| ==> dts[k] >= d
    requires st.scaleDuration <= m as real * d && i <= m && time >= i as real * d
    requires |dts| >= m - i + 1 + m
    ensures ScaleRun(st, ScaleJob(Grow, time), dts) == ScaleStep(st.scaleFrom, None)
    decreases |dts|
  {
    if time < st.scaleDuration {
      StepsLeft(time, st.scaleDuration, d, i, m);
      assert time + dts[0] >= (i + 1) as real * d;
      GrowThenShrinkEnds(st, time + dts[0], dts[1..], d, i + 1, m);
    } else if 0.0 < st.scaleDuration {
      StepsLeft(0.0, st.scaleDuration, d, 0, m);
      assert ScaleSegment(st, ScaleJob(Grow, time), dts[0]).next == Some(ScaleJob(Shrink, dts[0]));
      ShrinkEnds(st, dts[0], dts[1..], d, 1, m);
    }
  }

  /** A pulse whose duration fits in m frames of at least `d` is over after
      2m + 1 frames, leaving the text at scaleFrom. */
  lemma ScalePulseEnds(st: Settings, dts: seq<real>, d: real, m: nat)
    requires d > 0.0 && forall k :: 0 <= k < |dts| ==> dts[k] >= d
    requires st.scaleDuration <= m as real * d && |dts| >= 2 * m + 1
    ensures ScaleRun(st, ScaleJob(Grow, 0.0), dts) == ScaleStep(st.scaleFrom, None)
  {
    GrowThenShrinkEnds(st, 0.0, dts, d, 0, m);
  }

  /** The counter's observable state: the text, its scale, and the two
      coroutines (countCoroutine and scaleCoroutine) as their suspended state. */
  datatype Counter = Counter(text: string, scale: Vec3, count: Option<CountJob>, pulse: Option<ScaleJob>)

  predicate CounterOk(c: Counter) {
    (c.count.Some? ==> c.count.value.elapsed >= 0.0) && (c.pulse.Some? ==> c.pulse.value.time >= 0.0)
  }

  /** PlayScaleAnimation: the running pulse is replaced by a new one, which
      runs its first segment at once. */
  function Pulsed(st: Settings, c: Counter, dt: real): (r: Counter)
    requires dt >= 0.0
    ensures r.text == c.text && r.count == c.count
    ensures r.pulse.Some? ==> r.pulse.value.time >= 0.0
  {
    var p := ScaleSegment(st, ScaleJob(Grow, 0.0), dt);
    c.(scale := p.scale, pulse := p.next)
  }

  /** One resumption of CountRoutine `j`: the text it writes, the job left,
      and a restarted pulse when the segment asks for one. */
  function Applied(st: Settings, c: Counter, j: CountJob, dt: real): (r: Counter)
    requires j.elapsed >= 0.0 && dt >= 0.0
    ensures CounterOk(c) ==> CounterOk(r)
  {
    var s := CountSegment(st, j, dt);
    var c1 := c.(text := if s.text.Some? then s.text.value else c.text, count := s.next);
    if s.pulse then Pulsed(st, c1, dt) else c1
  }

  /** StartCounting(from, to): nothing without a text; otherwise the running
      count is replaced by CountRoutine(from, to), run to its first yield. */
  function Started(st: Settings, hasText: bool, c: Counter, from: int, to: int, dt: real): (r: Counter)
    requires dt >= 0.0
    ensures CounterOk(c) ==> CounterOk(r)
  {
    if hasText then Applied(st, c.(count := None), CountJob(from, to, 0.0, from), dt) else c
  }

  /** OnEnable: nothing without a text; otherwise startValue is shown at
      scaleFrom and, with playOnEnable, counting to endValue starts. */
  function Enabled(st: Settings, hasText: bool, playOnEnable: bool, startValue: int, endValue: int,
                   c: Counter, dt: real): (r: Counter)
    requires dt >= 0.0
    ensures CounterOk(c) ==> CounterOk(r)
  {
    if !hasText then c
    else
      var shown := c.(text := FormatNumber(st.useCommaFormat, startValue), scale := st.scaleFrom);
      if playOnEnable then Started(st, hasText, shown, startValue, endValue, dt) else shown
  }

  /** One frame: the running pulse resumes, then the running count. */
  function Framed(st: Settings, c: Counter, dt: real): (r: Counter)
    requires CounterOk(c) && dt >= 0.0
    ensures CounterOk(r)
  {
    var c1 := if c.pulse.Some? then
                var s := ScaleSegment(st, c.pulse.value, dt); c.(scale := s.scale, pulse := s.next)
              else c;
    if c1.count.Some? then Applied(st, c1, c1.count.value, dt) else c1
  }

  /** Frames of the given lengths, one after another. */
  function FramedRun(st: Settings, c: Counter, dts: seq<real>): (r: Counter)
    requires CounterOk(c) && forall k :: 0 <= k < |dts| ==> dts[k] >= 0.0
    ensures CounterOk(r)
    decreases |dts|
  {
    if dts == [] then c else FramedRun(st, Framed(st, c, dts[0]), dts[1..])
  }

  /** Frames never touch the text once no count is running. */
  lemma {:induction false} IdleKeepsText(st: Settings, c: Counter, dts: seq<real>)
    requires CounterOk(c) && c.count.None? && forall k :: 0 <= k < |dts| ==> dts[k] >= 0.0
    ensures FramedRun(st, c, dts).text == c.text && FramedRun(st, c, dts).count.None?
    decreases |dts|
  {
    if dts != [] {
      IdleKeepsText(st, Framed(st, c, dts[0]), dts[1..]);
    }
  }

  /** A running count whose elapsed time is at least i*d, with frames of at
      least d and duration <= m*d, has ended after m - i + 1 frames, and the
      text then shows exactly `to`, whatever the pulse does meanwhile. */
  lemma {:induction false} CountEnds(st: Settings, c: Counter, dts: seq<real>, d: real, i: nat, m: nat)
    requires CounterOk(c) && c.count.Some? && d > 0.0 && forall k :: 0 <= k < |dts| ==> dts[k] >= d
    requires st.duration <= m as real * d && i <= m && c.count.value.elapsed >= i as real * d
    requires |dts| == m - i + 1
    ensures var r := FramedRun(st, c, dts);
            r.count.None? && r.text == FormatNumber(st.useCommaFormat, c.count.value.to)
    decreases |dts|
  {
    var j := c.count.value;
    var next := Framed(st, c, dts[0]);
    if j.elapsed < st.duration {
      StepsLeft(j.elapsed, st.duration, d, i, m);
      assert next.count == Some(CountJob(j.from, j.to, j.elapsed + dts[0], CountSegment(st, j, dts[0]).next.value.lastValue));
      CountEnds(st, next, dts[1..], d, i + 1, m);
    } else {
      assert next.count.None? && next.text == FormatNumber(st.useCommaFormat, j.to);
      IdleKeepsText(st, next, dts[1..]);
    }
  }

  /** After OnEnable with playOnEnable and a text, the count to endValue ends
      within m + 1 frames of at least d (duration <= m*d), showing endValue. */
  lemma EnabledCountEnds(st: Settings, playOnEnable: bool, startValue: int, endValue: int,
                         c: Counter, dt: real, dts: seq<real>, d: real, m: nat)
    requires CounterOk(c) && playOnEnable && dt >= 0.0 && d > 0.0
    requires forall k :: 0 <= k < |dts| ==> dts[k] >= d
    requires st.duration <= m as real * d && |dts| == m + 1
    ensures var r := FramedRun(st, Enabled(st, true, playOnEnable, startValue, endValue, c, dt), dts);
            r.count.None? && r.text == FormatNumber(st.useCommaFormat, endValue)
  {
    var e := Enabled(st, true, playOnEnable, startValue, endValue, c, dt);
    if e.count.Some? {
      assert e.count.value.to == endValue && e.count.value.elapsed >= 0 as real * d;
      CountEnds(st, e, dts, d, 0, m);
    } else {
      assert e.text == FormatNumber(st.useCommaFormat, endValue);
      IdleKeepsText(st, e, dts);
    }
  }

  /** The warning OnEnable logs without a text. */
  const MissingTextWarning: string := "TMP 텍스트가 연결되지 않았습니다!"

  class TmpNumberCounterBehaviour {
    const st: Settings
    /** tmpText is assigned. */
    const hasText: bool
    const startValue: int
    const endValue: int
    const playOnEnable: bool

    var text: string
    var scale: Vec3
    /** countCoroutine and scaleCoroutine, as their suspended state. */
    var count: Option<CountJob>
    var pulse: Option<ScaleJob>
    /** Debug.LogWarning messages, in order. */
    var warnings: seq<string>

    function State(): Counter
      reads this
    {
      Counter(text, scale, count, pulse)
    }

    predicate Valid()
      reads this
    {
      CounterOk(State())
    }

    constructor (st: Settings, hasText: bool, startValue: int, endValue: int, playOnEnable: bool,
                 text: string, scale: Vec3)
      ensures this.st == st && this.hasText == hasText && this.startValue == startValue
      ensures this.endValue == endValue && this.playOnEnable == playOnEnable
      ensures State() == Counter(text, scale, None, None) && warnings == [] && Valid()
    {
      this.st := st;
      this.hasText := hasText;
      this.startValue := startValue;
      this.endValue := endValue;
      this.playOnEnable := playOnEnable;
      this.text := text;
      this.scale := scale;
      count := None;
      pulse := None;
      warnings := [];
    }

    /** PlayScaleAnimation: the running pulse is stopped and a new one starts,
        running its first segment in this frame. */
    method PlayScaleAnimation(dt: real)
      requires dt >= 0.0
      modifies this`scale, this`pulse
      ensures State() == Pulsed(st, old(State()), dt)
    {
      pulse := None;
      var s := ScaleSegment(st, ScaleJob(Grow, 0.0), dt);
      scale := s.scale;
      pulse := s.next;
    }

    /** Applies one resumption of the counting routine. */
    method ApplyCount(j: CountJob, dt: real)
      requires j.elapsed >= 0.0 && dt >= 0.0
      modifies this`text, this`scale, this`count, this`pulse
      ensures State() == Applied(st, old(State()), j, dt)
    {
      var s := CountSegment(st, j, dt);
      if s.text.Some? {
        text := s.text.value;
      }
      count := s.next;
      if s.pulse {
        PlayScaleAnimation(dt);
      }
    }

    method StartCounting(from: int, to: int, dt: real)
      requires Valid() && dt >= 0.0
      modifies this`text, this`scale, this`count, this`pulse
      ensures Valid() && State() == Started(st, hasText, old(State()), from, to, dt)
    {
      if !hasText {
        return;
      }
      count := None;
      ApplyCount(CountJob(from, to, 0.0, from), dt);
    }

    /** OnEnable: without a text only a warning is logged. */
    method OnEnable(dt: real)
      requires Valid() && dt >= 0.0
      modifies this`text, this`scale, this`count, this`pulse, this`warnings
      ensures Valid() && State() == Enabled(st, hasText, playOnEnable, startValue, endValue, old(State()), dt)
      ensures warnings == old(warnings) + (if hasText then [] else [MissingTextWarning])
    {
      if !hasText {
        warnings := warnings + [MissingTextWarning];
        return;
      }
      text := FormatNumber(st.useCommaFormat, startValue);
      scale := st.scaleFrom;
      if playOnEnable {
        StartCounting(startValue, endValue, dt);
      }
    }

    method RunCountManually(dt: real)
      requires Valid() && dt >= 0.0
      modifies this`text, this`scale, this`count, this`pulse
      ensures Valid() && State() == Started(st, hasText, old(State()), startValue, endValue, dt)
    {
      StartCounting(startValue, endValue, dt);
    }

    method Frame(dt: real)
      requires Valid() && dt >= 0.0
      modifies this`text, this`scale, this`count, this`pulse
      ensures Valid() && State() == Framed(st, old(State()), dt)
    {
      if pulse.Some? {
        var s := ScaleSegment(st, pulse.value, dt);
        scale := s.scale;
        pulse := s.next;
      }
      if count.Some? {
        ApplyCount(count.value, dt);
      }
    }
  }
}
