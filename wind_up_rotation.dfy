/** WindUpRotation: the object turns about z in steps of rotationStep degrees
    (at 360 degrees per totalRotationTime), pausing waitTime after each step,
    once or in a loop, after an optional initial delay; enabling restarts it
    from z = 0 and disabling stops it. */
module WindUpRotation {
  import opened Common

  /** The inspector settings. */
  datatype WindUp = WindUp(totalRotationTime: real, rotationStep: real, waitTime: real,
                           loop: bool, clockwise: bool, waitBeforeStart: real)

  /** `rotationStep / (360 / totalRotationTime)`. A zero totalRotationTime
      makes the speed infinite in single precision, and the duration 0. */
  function StepDuration(w: WindUp): (d: real)
    ensures w.totalRotationTime == 0.0 ==> d == 0.0
    ensures w.rotationStep >= 0.0 && w.totalRotationTime >= 0.0 ==> d >= 0.0
  {
    if w.totalRotationTime == 0.0 then 0.0 else w.rotationStep / (360.0 / w.totalRotationTime)
  }

  /** A step takes its share of a full turn's time, whatever the settings. */
  lemma StepDurationFormula(w: WindUp)
    ensures StepDuration(w) == w.rotationStep * w.totalRotationTime / 360.0
  {
    if w.totalRotationTime != 0.0 {
      var speed := 360.0 / w.totalRotationTime;
      assert speed * w.totalRotationTime == 360.0;
      assert (w.rotationStep * w.totalRotationTime / 360.0) * speed == w.rotationStep;
    }
  }

  /** Where one step from startZ ends. */
  function EndZ(w: WindUp, startZ: real): (r: real)
    ensures w.clockwise ==> r - startZ == w.rotationStep
    ensures !w.clockwise ==> startZ - r == w.rotationStep
  {
    startZ + (if w.clockwise then w.rotationStep else -w.rotationStep)
  }

  /** What follows a WaitForSeconds: the first step, or the check of `loop`. */
  datatype After = FirstStep | NextStep

  /** The suspended coroutine: inside a WaitForSeconds (time waited, its
      length, what follows), or inside a step's turning loop. */
  datatype Routine = Waiting(waited: real, length: real, after: After)
                   | Turning(startZ: real, endZ: real, elapsed: real)

  /** The z rotation and the coroutine (None once it has ended). */
  datatype Spin = Spin(z: real, routine: Option<Routine>)

  /** A step's time only grows from 0 by frame lengths. */
  predicate SpinOk(s: Spin) {
    s.routine.Some? && s.routine.value.Turning? ==> s.routine.value.elapsed >= 0.0
  }

  /** Resumes the coroutine for one frame of length dt. A wait ends in the
      frame its length is reached and the code after it runs in that frame;
      a step in its loop sets z along the lerp from startZ to endZ and
      advances its time; after the loop z is set exactly to endZ and the
      pause begins. After the pause the coroutine ends unless `loop`. */
  function Resume(w: WindUp, r: Routine, z: real, dt: real): (s: Spin)
    requires SpinOk(Spin(z, Some(r))) && dt >= 0.0
    ensures SpinOk(s)
  {
    match r
    case Waiting(waited, length, after) =>
      if waited + dt < length then Spin(z, Some(Waiting(waited + dt, length, after)))
      else if after == NextStep && !w.loop then Spin(z, None)
      else BeginStep(w, z, dt)
    case Turning(startZ, endZ, elapsed) =>
      var duration := StepDuration(w);
      if elapsed < duration then Spin(Lerp(startZ, endZ, elapsed / duration), Some(Turning(startZ, endZ, elapsed + dt)))
      else Spin(endZ, Some(Waiting(0.0, w.waitTime, NextStep)))
  }

  /** A step begins from the current z and runs up to its first yield. */
  function BeginStep(w: WindUp, z: real, dt: real): (s: Spin)
    requires dt >= 0.0
    ensures SpinOk(s)
  {
    var duration := StepDuration(w);
    var endZ := EndZ(w, z);
    if 0.0 < duration then Spin(Lerp(z, endZ, 0.0), Some(Turning(z, endZ, dt)))
    else Spin(endZ, Some(Waiting(0.0, w.waitTime, NextStep)))
  }

  /** StartRotationFromBeginning: z goes back to 0 and a new coroutine runs
      up to its first yield (the old one, if any, is gone). */
  function Restart(w: WindUp, dt: real): (s: Spin)
    requires dt >= 0.0
    ensures SpinOk(s)
  {
    if w.waitBeforeStart > 0.0 then Spin(0.0, Some(Waiting(0.0, w.waitBeforeStart, FirstStep)))
    else BeginStep(w, 0.0, dt)
  }

  /** Whatever ran before, a restart leaves z at 0 (or, with no delay and a
      non-positive step duration, already at the end of the first step from 0). */
  lemma RestartFromZero(w: WindUp, dt: real)
    requires dt >= 0.0
    ensures var s := Restart(w, dt);
            s.routine.Some? &&
            (w.waitBeforeStart > 0.0 || 0.0 < StepDuration(w) ==> s.z == 0.0) &&
            (w.waitBeforeStart <= 0.0 && StepDuration(w) <= 0.0 ==> s.z == EndZ(w, 0.0))
  {
  }

  /** A step's loop keeps z between its start and its end, and the frame it
      leaves the loop puts z exactly on endZ. */
  lemma TurningStaysOnStep(w: WindUp, startZ: real, endZ: real, elapsed: real, z: real, dt: real)
    requires elapsed >= 0.0 && dt >= 0.0
    ensures var s := Resume(w, Turning(startZ, endZ, elapsed), z, dt);
            Between(s.z, startZ, endZ) &&
            (elapsed >= StepDuration(w) ==> s.z == endZ && s.routine == Some(Waiting(0.0, w.waitTime, NextStep))) &&
            (elapsed < StepDuration(w) ==> s.routine == Some(Turning(startZ, endZ, elapsed + dt)))
  {
  }

  /** Without `loop`, the pause after a step ends the coroutine: no second
      step ever starts. With `loop`, the next step starts from where the last
      one ended. */
  lemma PauseEndsOrRepeats(w: WindUp, waited: real, z: real, dt: real)
    requires dt >= 0.0
    ensures var s := Resume(w, Waiting(waited, w.waitTime, NextStep), z, dt);
            (waited + dt < w.waitTime ==> s == Spin(z, Some(Waiting(waited + dt, w.waitTime, NextStep)))) &&
            (waited + dt >= w.waitTime && !w.loop ==> s == Spin(z, None)) &&
            (waited + dt >= w.waitTime && w.loop ==> s == BeginStep(w, z, dt))
  {
  }

  /** Frames of the given lengths, one after another. */
  function Run(w: WindUp, s: Spin, dts: seq<real>): (r: Spin)
    requires SpinOk(s) && forall k :: 0 <= k < |dts| ==> dts[k] >= 0.0
    ensures SpinOk(r)
    decreases |dts|
  {
    if dts == [] || s.routine.None? then s
    else Run(w, Resume(w, s.routine.value, s.z, dts[0]), dts[1..])
  }

  /** Without `loop`, once the pause after a step has begun no later frame
      turns again: the coroutine is still pausing or has ended, and z stays. */
  lemma {:induction false} NoLoopNoSecondStep(w: WindUp, waited: real, z: real, dts: seq<real>)
    requires !w.loop && forall k :: 0 <= k < |dts| ==> dts[k] >= 0.0
    ensures var s := Run(w, Spin(z, Some(Waiting(waited, w.waitTime, NextStep))), dts);
            s.z == z && (s.routine.None? || (s.routine.value.Waiting? && s.routine.value.after == NextStep))
    decreases |dts|
  {
    if dts != [] {
      var next := Resume(w, Waiting(waited, w.waitTime, NextStep), z, dts[0]);
      if next.routine.Some? {
        NoLoopNoSecondStep(w, waited + dts[0], z, dts[1..]);
      }
    }
  }

  /** With frames of at least d and a step duration <= m*d, a step at
      elapsed >= i*d reaches its end, z exactly endZ and the pause begun,
      within m - i + 1 frames. */
  lemma {:induction false} StepFinishes(w: WindUp, startZ: real, endZ: real, elapsed: real, z: real,
                                        dts: seq<real>, d: real, i: nat, m: nat)
    requires d > 0.0 && forall k :: 0 <= k < |dts| ==> dts[k] >= d
    requires StepDuration(w) <= m as real * d && i <= m && elapsed >= i as real * d && elapsed >= 0.0
    requires |dts| >= m - i + 1
    ensures exists k :: 1 <= k <= m - i + 1 &&
              Run(w, Spin(z, Some(Turning(startZ, endZ, elapsed))), dts[..k]) ==
              Spin(endZ, Some(Waiting(0.0, w.waitTime, NextStep)))
    decreases |dts|
  {
    var s := Spin(z, Some(Turning(startZ, endZ, elapsed)));
    var next := Resume(w, Turning(startZ, endZ, elapsed), z, dts[0]);
    if elapsed < StepDuration(w) {
      StepsLeft(elapsed, StepDuration(w), d, i, m);
      assert elapsed + dts[0] >= (i + 1) as real * d;
      StepFinishes(w, startZ, endZ, elapsed + dts[0], next.z, dts[1..], d, i + 1, m);
      var k :| 1 <= k <= m - (i + 1) + 1 &&
               Run(w, Spin(next.z, Some(Turning(startZ, endZ, elapsed + dts[0]))), dts[1..][..k]) ==
               Spin(endZ, Some(Waiting(0.0, w.waitTime, NextStep)));
      assert dts[..k + 1][1..] == dts[1..][..k];
      assert Run(w, s, dts[..k + 1]) == Spin(endZ, Some(Waiting(0.0, w.waitTime, NextStep)));
    } else {
      assert dts[..1][1..] == [];
      assert Run(w, s, dts[..1]) == Spin(endZ, Some(Waiting(0.0, w.waitTime, NextStep)));
    }
  }

  class WindUpRotationBehaviour {
    const settings: WindUp
    var z: real
    /** rotateCoroutine, as its suspended state. */
    var routine: Option<Routine>

    predicate Valid()
      reads this
    {
      SpinOk(Spin(z, routine))
    }

    constructor (settings: WindUp, z: real)
      ensures this.settings == settings && this.z == z && routine.None? && Valid()
    {
      this.settings := settings;
      this.z := z;
      routine := None;
    }

    /** Start and OnEnable both restart from the beginning. */
    method OnEnable(dt: real)
      requires dt >= 0.0
      modifies this`z, this`routine
      ensures Valid() && Spin(z, routine) == Restart(settings, dt)
    {
      StartRotationFromBeginning(dt);
    }

    method OnDisable()
      modifies this`routine
      ensures routine.None? && Valid()
    {
      StopRotation();
    }

    method StartRotationFromBeginning(dt: real)
      requires dt >= 0.0
      modifies this`z, this`routine
      ensures Valid() && Spin(z, routine) == Restart(settings, dt)
    {
      StopRotation();
      z := 0.0;
      if settings.waitBeforeStart > 0.0 {
        routine := Some(Waiting(0.0, settings.waitBeforeStart, FirstStep));
      } else {
        var s := BeginStep(settings, z, dt);
        z := s.z;
        routine := s.routine;
      }
    }

    method StopRotation()
      modifies this`routine
      ensures routine.None? && Valid()
    {
      if routine.Some? {
        routine := None;
      }
    }

    /** One frame: the coroutine, if running, resumes. */
    method Frame(dt: real)
      requires Valid() && dt >= 0.0
      modifies this`z, this`routine
      ensures Valid()
      ensures old(routine).None? ==> z == old(z) && routine.None?
      ensures old(routine).Some? ==> Spin(z, routine) == Resume(settings, old(routine).value, old(z), dt)
    {
      if routine.Some? {
        var s := Resume(settings, routine.value, z, dt);
        z := s.z;
        routine := s.routine;
      }
    }
  }
}
