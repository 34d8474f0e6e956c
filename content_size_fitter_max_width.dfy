/** ContentSizeFitterMaxWidth: a ContentSizeFitter that fits the preferred
    width only up to maxWidth; past it the fitter lets go of the width and
    the rect is set to exactly maxWidth. */
module ContentSizeFitterMaxWidth {
  import opened Common

  /** ContentSizeFitter.FitMode, the two values used here. */
  datatype FitMode = Unconstrained | PreferredSize

  /** The mode the first assignment in Update picks. */
  function FitFor(preferred: real, maxWidth: real): (m: FitMode)
    ensures m == Unconstrained <==> preferred > maxWidth
  {
    if preferred > maxWidth then Unconstrained else PreferredSize
  }

  /** Update's branch: the fitter mode it leaves and the rect width after it. */
  datatype Fitting = Fitting(mode: FitMode, width: real)

  function Fit(preferred: real, maxWidth: real, width: real): (r: Fitting)
    ensures r.mode == FitFor(preferred, maxWidth)
    ensures LaidOutWidth(r, preferred) <= maxWidth
  {
    if preferred > maxWidth then Fitting(Unconstrained, maxWidth) else Fitting(PreferredSize, width)
  }

  /** The width the layout ends with: a PreferredSize fitter sizes the rect
      to the preferred width, an Unconstrained one leaves it as set. */
  function LaidOutWidth(f: Fitting, preferred: real): real {
    if f.mode == PreferredSize then preferred else f.width
  }

  /** The early assignment and the branch agree on the mode, the laid-out
      width is the preferred width capped at maxWidth, and the rect width is
      only written when the cap applies. */
  lemma FitCapsWidth(preferred: real, maxWidth: real, width: real)
    ensures Fit(preferred, maxWidth, width).mode == FitFor(preferred, maxWidth)
    ensures LaidOutWidth(Fit(preferred, maxWidth, width), preferred) == if preferred > maxWidth then maxWidth else preferred
    ensures LaidOutWidth(Fit(preferred, maxWidth, width), preferred) <= maxWidth &&
            LaidOutWidth(Fit(preferred, maxWidth, width), preferred) <= preferred
    ensures preferred <= maxWidth ==> Fit(preferred, maxWidth, width).width == width
  {
  }

  /** Update is a fixed point: running it again on the same preferred width
      changes nothing. */
  lemma FitIdempotent(preferred: real, maxWidth: real, width: real)
    ensures var f := Fit(preferred, maxWidth, width);
            Fit(preferred, maxWidth, f.width) == f
  {
  }

  /** A cached reference is looked up only while it is null. */
  function Cache(current: Option<nat>, found: Option<nat>): (r: Option<nat>)
    ensures current.Some? ==> r == current
    ensures current.None? ==> r == found
  {
    if current.None? then found else current
  }

  /** Filling the cache twice from the same lookups is filling it once. */
  lemma CacheIdempotent(current: Option<nat>, found: Option<nat>)
    ensures Cache(Cache(current, found), found) == Cache(current, found)
  {
  }

  class ContentSizeFitterMaxWidthBehaviour {
    const maxWidth: real
    /** `_rtfm`, `_fitter`, `_layout`: ids of the cached components. */
    var rtfm: Option<nat>
    var fitter: Option<nat>
    var layout: Option<nat>
    /** The fitter's horizontalFit. */
    var horizontalFit: FitMode
    /** The rect transform's horizontal size. */
    var width: real

    constructor (maxWidth: real, horizontalFit: FitMode, width: real)
      ensures this.maxWidth == maxWidth && this.horizontalFit == horizontalFit && this.width == width
      ensures rtfm.None? && fitter.None? && layout.None?
    {
      this.maxWidth := maxWidth;
      this.horizontalFit := horizontalFit;
      this.width := width;
      rtfm := None;
      fitter := None;
      layout := None;
    }

    /** OnEnable: the transform, the ContentSizeFitter and the ILayoutElement
        lookups (a missing ILayoutElement is None) fill only the null caches. */
    method OnEnable(transform: nat, foundFitter: nat, foundLayout: Option<nat>)
      modifies this`rtfm, this`fitter, this`layout
      ensures rtfm == Cache(old(rtfm), Some(transform))
      ensures fitter == Cache(old(fitter), Some(foundFitter))
      ensures layout == Cache(old(layout), foundLayout)
    {
      if rtfm.None? { rtfm := Some(transform); }
      if fitter.None? { fitter := Some(foundFitter); }
      if layout.None? { layout := foundLayout; }
    }

    /** OnValidate runs OnEnable. */
    method OnValidate(transform: nat, foundFitter: nat, foundLayout: Option<nat>)
      modifies this`rtfm, this`fitter, this`layout
      ensures rtfm == Cache(old(rtfm), Some(transform))
      ensures fitter == Cache(old(fitter), Some(foundFitter))
      ensures layout == Cache(old(layout), foundLayout)
    {
      OnEnable(transform, foundFitter, foundLayout);
    }

    /** Update, given the layout element's preferred width; it dereferences
        all three caches. */
    method Update(preferred: real)
      requires rtfm.Some? && fitter.Some? && layout.Some?
      modifies this`horizontalFit, this`width
      ensures Fitting(horizontalFit, width) == Fit(preferred, maxWidth, old(width))
    {
      horizontalFit := if preferred > maxWidth then Unconstrained else PreferredSize;
      if preferred > maxWidth {
        horizontalFit := Unconstrained;
        width := maxWidth;
      } else {
        horizontalFit := PreferredSize;
      }
    }
  }
}
