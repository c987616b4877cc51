/** Expanding rings: the sonic rings of the BIA boss and the discharge
    rings of the biometric enforcer. Each frame an active ring grows and
    fades; a ring whose alpha reaches zero, or that is no longer active, is
    spliced out of its owner's list. */
module Rings {
  import opened Common

  datatype Ring = Ring(x: real, y: real, scale: real, alpha: real, active: bool)

  /** One pass of the reverse ring loop for one ring: `grow` is the frame's
      scale increase and `fade` its alpha decrease. */
  function Fade(grow: real, fade: real): Ring -> Option<Ring>
  {
    (r: Ring) =>
      if !r.active then None
      else if r.alpha - fade <= 0.0 then None
      else Some(r.(scale := r.scale + grow, alpha := r.alpha - fade))
  }

  /** A single ring over several frames: `None` once it is gone. */
  function FadeRun(r: Ring, grows: seq<real>, fades: seq<real>): Option<Ring>
    requires |grows| == |fades|
    decreases |fades|
  {
    if fades == [] then Some(r)
    else match Fade(grows[0], fades[0])(r)
      case None => None
      case Some(r1) => FadeRun(r1, grows[1..], fades[1..])
  }

  /** A ring survives a run of frames exactly when its alpha outlasts the
      total fade, and it then has grown by the total growth. */
  lemma {:induction false} FadeSurvival(r: Ring, grows: seq<real>, fades: seq<real>)
    requires |grows| == |fades|
    requires r.active && r.alpha > 0.0
    requires forall k :: 0 <= k < |fades| ==> fades[k] >= 0.0
    decreases |fades|
    ensures FadeRun(r, grows, fades).Some? <==> r.alpha - SumOf(fades) > 0.0
    ensures FadeRun(r, grows, fades).Some? ==>
              FadeRun(r, grows, fades).value == r.(scale := r.scale + SumOf(grows), alpha := r.alpha - SumOf(fades))
  {
    if fades != [] {
      NonNegativeSum(fades[1..]);
      if r.alpha - fades[0] > 0.0 {
        FadeSurvival(r.(scale := r.scale + grows[0], alpha := r.alpha - fades[0]), grows[1..], fades[1..]);
      }
    }
  }
}
