/** ScrollContentScaler: every frame, maps the scroll position through a curve
    to a scale between two endpoints and, when that target differs from the
    last one, restarts a scale tween on the content towards it. */
module ScrollContentScaler {
  import opened Common

  /** A DOScale tween on the content and the scale it ends at. */
  datatype ScaleTween = ScaleTween(target: Vec3, duration: real)

  /** rawT: the horizontal normalised position, or one minus the vertical one
      (so that scrolling down from the top reads as progress from 0 to 1). */
  function RawT(isHorizontal: bool, horizontalPos: real, verticalPos: real): (t: real)
    ensures isHorizontal ==> t == horizontalPos
    ensures !isHorizontal ==> t + verticalPos == 1.0
  {
    if isHorizontal then horizontalPos else 1.0 - verticalPos
  }

  /** Vector3.Lerp clamps its weight, so every component of the target scale
      stays between the start and end scales whatever the curve returns, and
      the curve's 0 and 1 give the endpoints exactly. */
  function TargetScale(startScale: Vec3, endScale: Vec3, curve: real -> real, rawT: real): (r: Vec3)
    ensures Between(r.x, startScale.x, endScale.x) && Between(r.y, startScale.y, endScale.y)
    ensures Between(r.z, startScale.z, endScale.z)
    ensures curve(rawT) <= 0.0 ==> r == startScale
    ensures curve(rawT) >= 1.0 ==> r == endScale
  {
    Lerp3(startScale, endScale, curve(rawT))
  }

  class ScrollContentScalerBehaviour {
    const isHorizontal: bool
    const startScale: Vec3
    const endScale: Vec3
    const scaleCurve: real -> real
    const tweenDuration: real

    var currentTargetScale: Vec3
    /** The live scale tween, if one is running. */
    var scaleTween: Option<ScaleTween>
    /** The content's localScale. */
    var scale: Vec3

    constructor (isHorizontal: bool, startScale: Vec3, endScale: Vec3, scaleCurve: real -> real,
                 tweenDuration: real, scale: Vec3)
      ensures this.isHorizontal == isHorizontal && this.startScale == startScale && this.endScale == endScale
      ensures this.scaleCurve == scaleCurve && this.tweenDuration == tweenDuration && this.scale == scale
      ensures currentTargetScale == Zero3 && scaleTween == None
    {
      this.isHorizontal := isHorizontal;
      this.startScale := startScale;
      this.endScale := endScale;
      this.scaleCurve := scaleCurve;
      this.tweenDuration := tweenDuration;
      this.scale := scale;
      currentTargetScale := Zero3;
      scaleTween := None;
    }

    /** One frame at the scroll rect's normalised positions. A new target kills
        the running tween and starts one towards it; an unchanged target leaves
        the running tween alone. */
    method Update(horizontalPos: real, verticalPos: real)
      modifies this`currentTargetScale, this`scaleTween
      ensures var target := TargetScale(startScale, endScale, scaleCurve, RawT(isHorizontal, horizontalPos, verticalPos));
              if target != old(currentTargetScale)
              then currentTargetScale == target && scaleTween == Some(ScaleTween(target, tweenDuration))
              else currentTargetScale == old(currentTargetScale) && scaleTween == old(scaleTween)
    {
      var rawT := if isHorizontal then horizontalPos else 1.0 - verticalPos;
      var curvedT := scaleCurve(rawT);
      var targetScale := Lerp3(startScale, endScale, curvedT);

      if currentTargetScale != targetScale {
        currentTargetScale := targetScale;
        scaleTween := Some(ScaleTween(targetScale, tweenDuration));
      }
    }

    /** The running tween reaches its end. */
    method CompleteTween()
      requires scaleTween.Some?
      modifies this`scale, this`scaleTween
      ensures scale == old(scaleTween.value.target) && scaleTween == None
    {
      scale := scaleTween.value.target;
      scaleTween := None;
    }
  }
}
