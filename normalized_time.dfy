/** The AnimateToNormalizedTime coroutine both AnimationSliderBinder and
    AnimationSliderBinderAction run: it moves an animation state's normalized
    time from where it is to a target over `duration` (unscaled) seconds,
    sampling the animation once per frame, and ends exactly on the target. */
module NormalizedTime {
  import opened Common

  /** The slider's value (on its forced range [0, 100]) as a normalized time. */
  function TargetTime(value: real): (r: real)
    ensures 0.0 <= r <= 1.0
    ensures 0.0 <= value <= 100.0 ==> r * 100.0 == value
  {
    Clamp01(value / 100.0)
  }

  /** A further slider never asks for an earlier point of the animation. */
  lemma TargetTimeMonotone(v1: real, v2: real)
    requires v1 <= v2
    ensures TargetTime(v1) <= TargetTime(v2)
  {
    assert v1 / 100.0 <= v2 / 100.0;
  }

  /** A suspended AnimateToNormalizedTime: its `start`, its target and `elapsed`. */
  datatype TimeJob = TimeJob(start: real, target: real, elapsed: real)

  /** One resumption: the normalized time it sets (and samples), whether it
      also set the weight (only inside the loop), and the job still suspended. */
  datatype TimeStep = TimeStep(time: real, setsWeight: bool, next: Option<TimeJob>)

  function TimeSegment(duration: real, j: TimeJob, dt: real): (r: TimeStep)
    requires j.elapsed >= 0.0 && dt >= 0.0
    ensures r.next.None? <==> j.elapsed >= duration
    ensures r.setsWeight <==> r.next.Some?
    // the last resumption lands exactly on the target ...
    ensures r.next.None? ==> r.time == j.target
    // ... and the others stay between the start and the target
    ensures r.next.Some? ==> r.next.value == TimeJob(j.start, j.target, j.elapsed + dt) &&
                             Between(r.time, j.start, j.target)
  {
    if j.elapsed < duration then
      var e := j.elapsed + dt;
      TimeStep(Lerp(j.start, j.target, Clamp01(e / duration)), true, Some(TimeJob(j.start, j.target, e)))
    else TimeStep(j.target, false, None)
  }

  /** The interpolation only ever closes in on the target: a later resumption
      is no farther from it than an earlier one. */
  lemma TimeSegmentApproaches(duration: real, j: TimeJob, dt1: real, dt2: real)
    requires j.elapsed >= 0.0 && 0.0 <= dt1 && 0.0 <= dt2
    ensures var j2 := j.(elapsed := j.elapsed + dt1);
            Abs(TimeSegment(duration, j2, dt2).time - j.target) <= Abs(TimeSegment(duration, j, dt1).time - j.target)
  {
    var j2 := j.(elapsed := j.elapsed + dt1);
    if j.elapsed < duration && j2.elapsed < duration {
      var c1 := Clamp01((j.elapsed + dt1) / duration);
      var c2 := Clamp01((j2.elapsed + dt2) / duration);
      DivMonotone(j.elapsed + dt1, j2.elapsed + dt2, duration);
      assert c1 <= c2;
      LerpCloser(j.start, j.target, c1, c2);
    }
  }

  /** A larger weight lands no farther from the end point. */
  lemma LerpCloser(a: real, b: real, c1: real, c2: real)
    requires 0.0 <= c1 <= c2 <= 1.0
    ensures Abs(Lerp(a, b, c2) - b) <= Abs(Lerp(a, b, c1) - b)
  {
    assert Lerp(a, b, c2) - Lerp(a, b, c1) == (b - a) * (c2 - c1);
    if a <= b {
      MulNonneg(b - a, c2 - c1);
    } else {
      MulNonneg(a - b, c2 - c1);
      assert (b - a) * (c2 - c1) == -((a - b) * (c2 - c1));
    }
  }

  /** The animation state the coroutine drives: its normalized time, whether it
      is enabled, its weight, and the times the animation was sampled at. */
  datatype Pose = Pose(normalizedTime: real, enabled: bool, weight: real, samples: seq<real>)

  /** What one resumption leaves on the state: the time set and sampled, the
      state disabled again, the weight 1 inside the loop. */
  function Apply(p: Pose, s: TimeStep): (r: Pose)
    ensures r.normalizedTime == s.time && !r.enabled && r.samples == p.samples + [s.time]
    ensures r.weight == (if s.setsWeight then 1.0 else p.weight)
  {
    Pose(s.time, false, if s.setsWeight then 1.0 else p.weight, p.samples + [s.time])
  }

  /** The state together with the interpolation running on it (at most one:
      `_animationCoroutine`). */
  datatype Playback = Playback(pose: Pose, job: Option<TimeJob>)

  predicate Ok(b: Playback) {
    b.job.Some? ==> b.job.value.elapsed >= 0.0
  }

  /** One frame: the running interpolation, if any, resumes. */
  function Advance(duration: real, b: Playback, dt: real): (r: Playback)
    requires Ok(b) && dt >= 0.0
    ensures Ok(r)
    ensures b.job.None? ==> r == b
  {
    if b.job.None? then b
    else
      var s := TimeSegment(duration, b.job.value, dt);
      Playback(Apply(b.pose, s), s.next)
  }

  /** Frames of the given lengths, one after another. */
  function AdvanceAll(duration: real, b: Playback, dts: seq<real>): (r: Playback)
    requires Ok(b) && forall k :: 0 <= k < |dts| ==> dts[k] >= 0.0
    ensures Ok(r)
    decreases |dts|
  {
    if dts == [] then b else AdvanceAll(duration, Advance(duration, b, dts[0]), dts[1..])
  }

  /** A slider change: the running interpolation is stopped and a new one from
      the state's current time to the slider's target starts, its first
      segment running in the frame of the change. */
  function Retarget(duration: real, p: Pose, value: real, dt: real): (r: Playback)
    requires dt >= 0.0
    ensures Ok(r)
  {
    Advance(duration, Playback(p, Some(TimeJob(p.normalizedTime, TargetTime(value), 0.0))), dt)
  }

  /** The state's time and every sample taken since index k0 lie between the
      start and the target of the interpolation that is (or was) running. */
  predicate OnTrack(b: Playback, start: real, target: real, k0: nat) {
    k0 <= |b.pose.samples| &&
    Between(b.pose.normalizedTime, start, target) &&
    (forall k :: k0 <= k < |b.pose.samples| ==> Between(b.pose.samples[k], start, target)) &&
    (b.job.Some? ==> b.job.value.start == start && b.job.value.target == target)
  }

  lemma AdvanceKeepsOnTrack(duration: real, b: Playback, dt: real, start: real, target: real, k0: nat)
    requires Ok(b) && dt >= 0.0 && OnTrack(b, start, target, k0)
    ensures OnTrack(Advance(duration, b, dt), start, target, k0)
  {
    if b.job.Some? {
      var r := Advance(duration, b, dt);
      assert forall k :: k0 <= k < |r.pose.samples| ==>
        r.pose.samples[k] == if k < |b.pose.samples| then b.pose.samples[k] else r.pose.normalizedTime;
    }
  }

  /** However many frames pass, the state never leaves the segment between the
      start and the target, and neither does any sample. */
  lemma {:induction false} AdvanceAllKeepsOnTrack(duration: real, b: Playback, dts: seq<real>,
                                                  start: real, target: real, k0: nat)
    requires Ok(b) && (forall k :: 0 <= k < |dts| ==> dts[k] >= 0.0) && OnTrack(b, start, target, k0)
    ensures OnTrack(AdvanceAll(duration, b, dts), start, target, k0)
    decreases |dts|
  {
    if dts != [] {
      AdvanceKeepsOnTrack(duration, b, dts[0], start, target, k0);
      AdvanceAllKeepsOnTrack(duration, Advance(duration, b, dts[0]), dts[1..], start, target, k0);
    }
  }

  /** A slider change starts an interpolation that stays between the state's
      time at the change and the slider's target. */
  lemma RetargetOnTrack(duration: real, p: Pose, value: real, dt: real, dts: seq<real>)
    requires dt >= 0.0 && forall k :: 0 <= k < |dts| ==> dts[k] >= 0.0
    ensures OnTrack(AdvanceAll(duration, Retarget(duration, p, value, dt), dts),
                    p.normalizedTime, TargetTime(value), |p.samples|)
  {
    var b := Playback(p, Some(TimeJob(p.normalizedTime, TargetTime(value), 0.0)));
    AdvanceKeepsOnTrack(duration, b, dt, p.normalizedTime, TargetTime(value), |p.samples|);
    AdvanceAllKeepsOnTrack(duration, Retarget(duration, p, value, dt), dts,
                           p.normalizedTime, TargetTime(value), |p.samples|);
  }

  /** Frames do nothing once no interpolation runs. */
  lemma {:induction false} AdvanceAllIdle(duration: real, b: Playback, dts: seq<real>)
    requires Ok(b) && b.job.None? && forall k :: 0 <= k < |dts| ==> dts[k] >= 0.0
    ensures AdvanceAll(duration, b, dts) == b
    decreases |dts|
  {
    if dts != [] {
      AdvanceAllIdle(duration, b, dts[1..]);
    }
  }

  /** With frames of at least `d` and duration <= m*d, an interpolation at
      elapsed >= i*d is over within m - i + 1 frames, the state left disabled
      exactly on the target, which was also the last time sampled. */
  lemma {:induction false} AdvanceAllEnds(duration: real, b: Playback, dts: seq<real>, d: real, i: nat, m: nat)
    requires Ok(b) && b.job.Some? && d > 0.0 && forall k :: 0 <= k < |dts| ==> dts[k] >= d
    requires duration <= m as real * d && i <= m && b.job.value.elapsed >= i as real * d
    requires |dts| >= m - i + 1
    ensures var r := AdvanceAll(duration, b, dts);
            r.job.None? && r.pose.normalizedTime == b.job.value.target && !r.pose.enabled &&
            r.pose.samples != [] && r.pose.samples[|r.pose.samples| - 1] == b.job.value.target
    decreases |dts|
  {
    var j := b.job.value;
    var b' := Advance(duration, b, dts[0]);
    if j.elapsed < duration {
      StepsLeft(j.elapsed, duration, d, i, m);
      assert b'.job.value.elapsed >= (i + 1) as real * d;
      AdvanceAllEnds(duration, b', dts[1..], d, i + 1, m);
    } else {
      AdvanceAllIdle(duration, b', dts[1..]);
    }
  }

  /** After a slider change, m more frames of at least `d` (with duration <=
      m*d) bring the state to rest exactly at the slider's normalized time. */
  lemma RetargetSettles(duration: real, p: Pose, value: real, dt: real, dts: seq<real>, d: real, m: nat)
    requires d > 0.0 && dt >= d && (forall k :: 0 <= k < |dts| ==> dts[k] >= d)
    requires duration <= m as real * d && |dts| >= m
    ensures var r := AdvanceAll(duration, Retarget(duration, p, value, dt), dts);
            r.job.None? && r.pose.normalizedTime == TargetTime(value) && !r.pose.enabled
  {
    var b := Playback(p, Some(TimeJob(p.normalizedTime, TargetTime(value), 0.0)));
    assert AdvanceAll(duration, b, [dt] + dts) == AdvanceAll(duration, Retarget(duration, p, value, dt), dts) by {
      assert ([dt] + dts)[1..] == dts;
    }
    AdvanceAllEnds(duration, b, [dt] + dts, d, 0, m);
  }
}
