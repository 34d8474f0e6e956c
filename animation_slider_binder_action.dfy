/** AnimationSliderBinderAction: AnimationSliderBinder that also registers an
    "increase" and a "decrease" clip on its target and on a second animation,
    and plays the one matching the direction of each slider change on that
    second animation. */
module AnimationSliderBinderAction {
  import opened Common
  import opened NormalizedTime

  /** The errors and warnings the behaviour logs. */
  datatype Complaint = TargetMissing | ClipMissing | IncreaseNotPlayable | DecreaseNotPlayable

  /** One AddClip call: on the other animation or on the target, and the name. */
  datatype ClipAdd = ClipAdd(onOther: bool, name: string)

  /** The inspector fields: which animations are assigned and the names of the
      assigned clips. */
  datatype Scene = Scene(hasTarget: bool, clip: Option<string>, hasOther: bool,
                         increase: Option<string>, decrease: Option<string>)

  /** What Initialize works on: its flags, the clip names each animation has
      states for, the AddClip calls made and the complaints logged. */
  datatype Registry = Registry(initialized: bool, hasState: bool, targetClips: set<string>,
                               otherClips: set<string>, added: seq<ClipAdd>, complaints: seq<Complaint>)

  function Names(o: Option<string>): set<string> {
    if o.Some? then {o.value} else {}
  }

  function Clips(g: Registry, onOther: bool): set<string> {
    if onOther then g.otherClips else g.targetClips
  }

  /** `if (clip != null && animation[clip.name] == null) animation.AddClip(...)`. */
  function Register(g: Registry, onOther: bool, clip: Option<string>): (r: Registry)
    ensures Clips(r, onOther) == Clips(g, onOther) + Names(clip)
    ensures Clips(r, !onOther) == Clips(g, !onOther)
    ensures r.added == if clip.Some? && clip.value !in Clips(g, onOther) then g.added + [ClipAdd(onOther, clip.value)]
                       else g.added
    ensures r.initialized == g.initialized && r.hasState == g.hasState && r.complaints == g.complaints
  {
    if clip.None? || clip.value in Clips(g, onOther) then g
    else if onOther then g.(otherClips := g.otherClips + {clip.value}, added := g.added + [ClipAdd(true, clip.value)])
    else g.(targetClips := g.targetClips + {clip.value}, added := g.added + [ClipAdd(false, clip.value)])
  }

  /** Initialize. Once it has succeeded it does nothing; without a target
      animation or its clip it complains; otherwise the clip, and then the
      increase and decrease clips, get states on the target and (when it is
      assigned) on the other animation, and the behaviour is initialized. */
  function Init(sc: Scene, g: Registry): (r: Registry)
    ensures r.initialized <==> g.initialized || (sc.hasTarget && sc.clip.Some?)
    ensures g.targetClips <= r.targetClips && g.otherClips <= r.otherClips
    ensures |g.complaints| <= |r.complaints| <= |g.complaints| + 1 && r.complaints[..|g.complaints|] == g.complaints
  {
    if g.initialized then g
    else if !sc.hasTarget then g.(complaints := g.complaints + [TargetMissing])
    else if sc.clip.None? then g.(complaints := g.complaints + [ClipMissing])
    else
      var g1 := Register(g, false, sc.clip).(hasState := true);
      var g2 := Register(Register(g1, false, sc.increase), false, sc.decrease);
      var g3 := if sc.hasOther then Register(Register(g2, true, sc.increase), true, sc.decrease) else g2;
      g3.(initialized := true)
  }

  /** An initialized registry has states for every clip it will be asked for. */
  predicate Ready(sc: Scene, g: Registry) {
    Names(sc.clip) + Names(sc.increase) + Names(sc.decrease) <= g.targetClips &&
    (sc.hasOther ==> Names(sc.increase) + Names(sc.decrease) <= g.otherClips)
  }

  /** The AddClip calls made since `g0` were each for a name its animation
      lacked in `g0`, now has, and were made at most once. */
  predicate AddsFresh(g0: Registry, g: Registry) {
    |g0.added| <= |g.added| && g.added[..|g0.added|] == g0.added &&
    (forall k :: |g0.added| <= k < |g.added| ==>
       g.added[k].name !in Clips(g0, g.added[k].onOther) && g.added[k].name in Clips(g, g.added[k].onOther)) &&
    (forall k1, k2 :: |g0.added| <= k1 < k2 < |g.added| ==> g.added[k1] != g.added[k2])
  }

  lemma RegisterAddsFresh(g0: Registry, g: Registry, onOther: bool, clip: Option<string>)
    requires AddsFresh(g0, g)
    requires Clips(g0, true) <= Clips(g, true) && Clips(g0, false) <= Clips(g, false)
    ensures AddsFresh(g0, Register(g, onOther, clip))
  {
    var r := Register(g, onOther, clip);
    if clip.Some? && clip.value !in Clips(g, onOther) {
      var n := |g.added|;
      assert r.added[..|g0.added|] == g.added[..|g0.added|];
      forall k | |g0.added| <= k < |r.added|
        ensures r.added[k].name !in Clips(g0, r.added[k].onOther) && r.added[k].name in Clips(r, r.added[k].onOther)
      {
        if k < n {
          assert r.added[k] == g.added[k];
        }
      }
      forall k1, k2 | |g0.added| <= k1 < k2 < |r.added|
        ensures r.added[k1] != r.added[k2]
      {
        if k2 == n {
          assert r.added[k1] == g.added[k1];
        }
      }
    }
  }

  /** A successful Initialize registers exactly the missing clips, each once:
      the target gains the clip and both direction clips, the other
      animation gains the direction clips when it is assigned (and nothing
      otherwise), and every AddClip was for a name still absent. */
  lemma InitRegisters(sc: Scene, g: Registry)
    requires !g.initialized && sc.hasTarget && sc.clip.Some?
    ensures var r := Init(sc, g);
            r.initialized && r.hasState && r.complaints == g.complaints && Ready(sc, r) &&
            r.targetClips == g.targetClips + Names(sc.clip) + Names(sc.increase) + Names(sc.decrease) &&
            r.otherClips == g.otherClips + (if sc.hasOther then Names(sc.increase) + Names(sc.decrease) else {}) &&
            AddsFresh(g, r)
  {
    assert AddsFresh(g, g);
    var g1 := Register(g, false, sc.clip).(hasState := true);
    RegisterAddsFresh(g, g, false, sc.clip);
    var g1a := Register(g1, false, sc.increase);
    RegisterAddsFresh(g, g1, false, sc.increase);
    var g2 := Register(g1a, false, sc.decrease);
    RegisterAddsFresh(g, g1a, false, sc.decrease);
    if sc.hasOther {
      var g2a := Register(g2, true, sc.increase);
      RegisterAddsFresh(g, g2, true, sc.increase);
      RegisterAddsFresh(g, g2a, true, sc.decrease);
    }
  }

  /** Initialize fails, only complaining, exactly when the target animation or
      its clip is missing; a failed Initialize is retried (and complains
      again) next time, a successful one is never redone. */
  lemma InitOutcome(sc: Scene, g: Registry)
    requires !g.initialized
    ensures Init(sc, g).initialized <==> sc.hasTarget && sc.clip.Some?
    ensures !sc.hasTarget ==> Init(sc, g) == g.(complaints := g.complaints + [TargetMissing])
    ensures sc.hasTarget && sc.clip.None? ==> Init(sc, g) == g.(complaints := g.complaints + [ClipMissing])
    ensures Init(sc, Init(sc, g)).initialized ==> Init(sc, Init(sc, g)) == Init(sc, g)
  {
  }

  /** What a change from `lastValue` to `value` does on the other animation:
      plays the clip of its direction, or complains. */
  datatype Cue = Play(name: string) | Warn(complaint: Complaint)

  /** PlayIncreaseAnimation (`increasing`) or PlayDecreaseAnimation: the clip
      plays only if it and the other animation are both assigned. */
  function PlayAnimation(sc: Scene, increasing: bool): (r: Cue)
    ensures var clip := if increasing then sc.increase else sc.decrease;
            (r.Play? <==> clip.Some? && sc.hasOther) && (r.Play? ==> clip == Some(r.name))
    ensures r.Warn? ==> r.complaint == if increasing then IncreaseNotPlayable else DecreaseNotPlayable
  {
    var clip := if increasing then sc.increase else sc.decrease;
    if clip.Some? && sc.hasOther then Play(clip.value)
    else Warn(if increasing then IncreaseNotPlayable else DecreaseNotPlayable)
  }

  /** The clips a cue plays and the complaints it logs. */
  function Played(c: Cue): seq<string> { if c.Play? then [c.name] else [] }
  function Warned(c: Cue): seq<Complaint> { if c.Warn? then [c.complaint] else [] }

  /** A rise plays the increase clip and anything else (a fall, or no change)
      the decrease clip, each only if that clip and the other animation are
      both assigned. */
  function DirectionCue(sc: Scene, lastValue: real, value: real): (r: Cue)
    ensures value > lastValue ==> (r.Play? <==> sc.increase.Some? && sc.hasOther) &&
                                  (r.Play? ==> r.name == sc.increase.value) &&
                                  (r.Warn? ==> r.complaint == IncreaseNotPlayable)
    ensures value <= lastValue ==> (r.Play? <==> sc.decrease.Some? && sc.hasOther) &&
                                   (r.Play? ==> r.name == sc.decrease.value) &&
                                   (r.Warn? ==> r.complaint == DecreaseNotPlayable)
  {
    PlayAnimation(sc, value > lastValue)
  }

  /** Whatever the direction, a clip played on the other animation is one it
      has a state for once the behaviour is initialized. */
  lemma PlayedIsRegistered(sc: Scene, g: Registry, lastValue: real, value: real)
    requires Ready(sc, g)
    ensures DirectionCue(sc, lastValue, value).Play? ==> DirectionCue(sc, lastValue, value).name in g.otherClips
  {
  }

  class AnimationSliderBinderActionBehaviour {
    const duration: real
    const scene: Scene

    var minValue: real
    var maxValue: real
    var initialized: bool
    var hasState: bool
    var targetClips: set<string>
    var otherClips: set<string>
    var added: seq<ClipAdd>
    var complaints: seq<Complaint>
    var lastValue: real
    /** The clips played on the other animation. */
    var played: seq<string>
    var pose: Pose
    var job: Option<TimeJob>

    function Reg(): Registry
      reads this
    {
      Registry(initialized, hasState, targetClips, otherClips, added, complaints)
    }

    predicate Valid()
      reads this
    {
      Ok(Playback(pose, job)) && (hasState <==> initialized) &&
      (initialized ==> Ready(scene, Reg())) && (job.Some? ==> hasState)
    }

    /** Awake: the slider's range becomes [0, 100] and Initialize runs once. */
    constructor (duration: real, scene: Scene, targetClips: set<string>, otherClips: set<string>, pose: Pose)
      ensures this.duration == duration && this.scene == scene
      ensures minValue == 0.0 && maxValue == 100.0 && lastValue == 0.0
      ensures Reg() == Init(scene, Registry(false, false, targetClips, otherClips, [], []))
      ensures played == [] && this.pose == pose && job.None? && Valid()
    {
      this.duration := duration;
      this.scene := scene;
      minValue := 0.0;
      maxValue := 100.0;
      initialized := false;
      hasState := false;
      this.targetClips := targetClips;
      this.otherClips := otherClips;
      added := [];
      complaints := [];
      lastValue := 0.0;
      played := [];
      this.pose := pose;
      job := None;
      new;
      Initialize();
    }

    /** `animation[name] == null ? animation.AddClip(...)`, on one animation. */
    method AddClipIfAbsent(onOther: bool, clip: Option<string>)
      modifies this`targetClips, this`otherClips, this`added
      ensures Reg() == Register(old(Reg()), onOther, clip)
    {
      if clip.Some? {
        if onOther && clip.value !in otherClips {
          otherClips := otherClips + {clip.value};
          added := added + [ClipAdd(true, clip.value)];
        } else if !onOther && clip.value !in targetClips {
          targetClips := targetClips + {clip.value};
          added := added + [ClipAdd(false, clip.value)];
        }
      }
    }

    method Initialize()
      requires hasState <==> initialized
      modifies this`initialized, this`hasState, this`targetClips, this`otherClips, this`added, this`complaints
      ensures Reg() == Init(scene, old(Reg()))
      ensures hasState <==> initialized
      ensures initialized ==> old(initialized) || Ready(scene, Reg())
    {
      if initialized {
        return;
      }
      if !scene.hasTarget {
        complaints := complaints + [TargetMissing];
        return;
      }
      if scene.clip.None? {
        complaints := complaints + [ClipMissing];
        return;
      }
      AddClipIfAbsent(false, scene.clip);
      hasState := true;
      AddClipIfAbsent(false, scene.increase);
      AddClipIfAbsent(false, scene.decrease);
      if scene.hasOther {
        AddClipIfAbsent(true, scene.increase);
        AddClipIfAbsent(true, scene.decrease);
      }
      initialized := true;
      InitRegisters(scene, old(Reg()));
    }

    /** OnSliderChanged: Initialize is retried until it succeeds; without a
        state the change is ignored (lastValue included); otherwise the
        direction's clip is played or a warning logged, lastValue follows the
        slider and the interpolation restarts towards value / 100. */
    method OnSliderChanged(value: real, dt: real)
      requires Valid() && dt >= 0.0
      modifies this`initialized, this`hasState, this`targetClips, this`otherClips, this`added, this`complaints
      modifies this`lastValue, this`played, this`pose, this`job
      ensures Valid()
      ensures var g := Init(scene, old(Reg()));
              !g.hasState ==> Reg() == g && lastValue == old(lastValue) && played == old(played) &&
                              pose == old(pose) && job == old(job)
      ensures var g := Init(scene, old(Reg()));
              var cue := DirectionCue(scene, old(lastValue), value);
              g.hasState ==>
                Reg() == g.(complaints := g.complaints + Warned(cue)) && played == old(played) + Played(cue) &&
                lastValue == value && Playback(pose, job) == Retarget(duration, old(pose), value, dt)
    {
      if !initialized {
        Initialize();
      }
      if !hasState {
        return;
      }
      Respond(value, dt);
    }

    /** The part of OnSliderChanged after the state check. */
    method Respond(value: real, dt: real)
      requires Valid() && hasState && dt >= 0.0
      modifies this`complaints, this`lastValue, this`played, this`pose, this`job
      ensures Valid()
      ensures var cue := DirectionCue(scene, old(lastValue), value);
              complaints == old(complaints) + Warned(cue) && played == old(played) + Played(cue) &&
              lastValue == value && Playback(pose, job) == Retarget(duration, old(pose), value, dt)
    {
      var isIncreasing := value > lastValue;
      if isIncreasing {
        PlayIncreaseAnimation();
      } else {
        PlayDecreaseAnimation();
      }
      lastValue := value;
      RestartInterpolation(value, dt);
    }

    /** The running interpolation is stopped and one towards value / 100 starts. */
    method RestartInterpolation(value: real, dt: real)
      requires dt >= 0.0
      modifies this`pose, this`job
      ensures Playback(pose, job) == Retarget(duration, old(pose), value, dt)
    {
      var targetTime := TargetTime(value);
      job := None;
      var b := Advance(duration, Playback(pose, Some(TimeJob(pose.normalizedTime, targetTime, 0.0))), dt);
      pose := b.pose;
      job := b.job;
    }

    method PlayIncreaseAnimation()
      modifies this`played, this`complaints
      ensures played == old(played) + Played(PlayAnimation(scene, true)) && complaints == old(complaints) + Warned(PlayAnimation(scene, true))
    {
      if scene.increase.Some? && scene.hasOther {
        played := played + [scene.increase.value];
      } else {
        complaints := complaints + [IncreaseNotPlayable];
      }
    }

    method PlayDecreaseAnimation()
      modifies this`played, this`complaints
      ensures played == old(played) + Played(PlayAnimation(scene, false)) && complaints == old(complaints) + Warned(PlayAnimation(scene, false))
    {
      if scene.decrease.Some? && scene.hasOther {
        played := played + [scene.decrease.value];
      } else {
        complaints := complaints + [DecreaseNotPlayable];
      }
    }

    /** One frame: the running interpolation resumes. */
    method Frame(dt: real)
      requires Valid() && dt >= 0.0
      modifies this`pose, this`job
      ensures Valid()
      ensures Playback(pose, job) == Advance(duration, old(Playback(pose, job)), dt)
    {
      if job.Some? {
        var s := TimeSegment(duration, job.value, dt);
        pose := Apply(pose, s);
        job := s.next;
      }
    }
  }
}
