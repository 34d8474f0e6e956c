/** AnimationSliderBinder: a slider forced onto [0, 100] scrubs an Animation's
    clip; each change interpolates the clip's normalized time to value / 100. */
module AnimationSliderBinder {
  import opened Common
  import opened NormalizedTime

  /** The two errors Initialize logs. */
  datatype Complaint = AnimationOrClipMissing | StateNotFound

  /** The error one failed Initialize logs, for a scene with or without the
      animation, its clip and the clip's state. */
  function InitComplaint(hasAnimation: bool, hasClip: bool): (r: Complaint)
    ensures r == AnimationOrClipMissing <==> !hasAnimation || !hasClip
  {
    if !hasAnimation || !hasClip then AnimationOrClipMissing else StateNotFound
  }

  class AnimationSliderBinderBehaviour {
    const duration: real
    /** targetAnimation is assigned. */
    const hasAnimation: bool
    /** targetAnimation.clip is assigned. */
    const hasClip: bool
    /** targetAnimation[clip.name] is an AnimationState. */
    const stateExists: bool

    var minValue: real
    var maxValue: real
    var initialized: bool
    /** `_state` is not null. */
    var hasState: bool
    var pose: Pose
    /** `_animationCoroutine`, as its suspended state. */
    var job: Option<TimeJob>
    var complaints: seq<Complaint>

    /** Everything Initialize needs is there. */
    predicate Bindable()
      reads this
    {
      hasAnimation && hasClip && stateExists
    }

    predicate Valid()
      reads this
    {
      Ok(Playback(pose, job)) &&
      (hasState <==> initialized) && (initialized <==> Bindable()) &&
      (job.Some? ==> hasState)
    }

    /** Awake: the slider's range becomes [0, 100] and Initialize runs once. */
    constructor (duration: real, hasAnimation: bool, hasClip: bool, stateExists: bool, pose: Pose)
      ensures this.duration == duration && this.hasAnimation == hasAnimation
      ensures this.hasClip == hasClip && this.stateExists == stateExists
      ensures minValue == 0.0 && maxValue == 100.0 && this.pose == pose && job.None?
      ensures Valid()
      ensures complaints == if Bindable() then [] else [InitComplaint(hasAnimation, hasClip)]
    {
      this.duration := duration;
      this.hasAnimation := hasAnimation;
      this.hasClip := hasClip;
      this.stateExists := stateExists;
      this.pose := pose;
      minValue := 0.0;
      maxValue := 100.0;
      initialized := false;
      hasState := false;
      job := None;
      complaints := [];
      new;
      Initialize();
    }

    /** Initialize: without the animation or its clip it only complains;
        otherwise it looks the state up, and only a found state marks the
        behaviour initialized. */
    method Initialize()
      requires !initialized && !hasState
      modifies this`initialized, this`hasState, this`complaints
      ensures initialized == hasState == Bindable()
      ensures complaints == old(complaints) + if Bindable() then [] else [InitComplaint(hasAnimation, hasClip)]
    {
      if !hasAnimation || !hasClip {
        complaints := complaints + [AnimationOrClipMissing];
        return;
      }
      hasState := stateExists;
      if !hasState {
        complaints := complaints + [StateNotFound];
        return;
      }
      initialized := true;
    }

    /** OnSliderChanged: retries Initialize while it has not succeeded and
        ignores the change without a state; otherwise the running
        interpolation is replaced by one towards value / 100. */
    method OnSliderChanged(value: real, dt: real)
      requires Valid() && dt >= 0.0
      modifies this`initialized, this`hasState, this`complaints, this`pose, this`job
      ensures Valid()
      ensures !Bindable() ==>
                pose == old(pose) && job == old(job) &&
                complaints == old(complaints) + [InitComplaint(hasAnimation, hasClip)]
      ensures Bindable() ==>
                Playback(pose, job) == Retarget(duration, old(pose), value, dt) && complaints == old(complaints)
    {
      if !initialized {
        Initialize();
      }
      if !hasState {
        return;
      }
      var targetTime := TargetTime(value);
      job := None;
      var b := Advance(duration, Playback(pose, Some(TimeJob(pose.normalizedTime, targetTime, 0.0))), dt);
      pose := b.pose;
      job := b.job;
    }

    /** One frame: the running interpolation resumes. */
    method Frame(dt: real)
      requires Valid() && dt >= 0.0
      modifies this`pose, this`job
      ensures Valid()
      ensures Playback(pose, job) == Advance(duration, old(Playback(pose, job)), dt)
    {
      if job.Some? {
        var s := TimeSegment(duration, job.value, dt);
        pose := Apply(pose, s);
        job := s.next;
      }
    }
  }
}
