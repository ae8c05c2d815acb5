/** The keyframe lists of the decorative gradient orbs. Each list is played
    on repeat; one whose last frame equals its first loops without a jump. */
module Keyframes {
  import opened Common

  /** The animated properties of one orb; any of them may be absent. */
  datatype OrbAnimation = OrbAnimation(
    x: Option<seq<real>>,
    y: Option<seq<real>>,
    scale: Option<seq<real>>,
    opacity: Option<seq<real>>)

  /** A frame list that ends where it starts. */
  predicate Loops(frames: seq<real>)
  {
    |frames| >= 2 && frames[0] == frames[|frames| - 1]
  }

  predicate LoopsIfPresent(frames: Option<seq<real>>)
  {
    frames.Some? ==> Loops(frames.value)
  }

  /** Every property the orb animates loops without a jump. */
  predicate Seamless(a: OrbAnimation)
  {
    LoopsIfPresent(a.x) && LoopsIfPresent(a.y) && LoopsIfPresent(a.scale) && LoopsIfPresent(a.opacity)
  }
}
