/** The pointer-driven tilt card (src/hooks/use3DCard.ts): the pointer's
    offset from the card's centre and a hover flag, updated by the enter,
    move and leave handlers. The offsets feed two declared linear mappings
    to rotations; the interpolation and the spring that smooth them are
    not part of this model, only the mappings' endpoint pairs are. */
module Card3D {
  import opened Common

  datatype SpringConfig = SpringConfig(stiffness: real, damping: real, mass: Option<real>)

  /** `use3DCard`'s options; either may be omitted. */
  datatype CardOptions = CardOptions(rotationRange: Option<real>, springConfig: Option<SpringConfig>)

  const DefaultRotationRange: real := 8.0
  const DefaultSpringConfig := SpringConfig(150.0, 20.0, Some(0.5))

  /** The options after destructuring with defaults. */
  datatype Settings = Settings(rotationRange: real, springConfig: SpringConfig)

  /** Each omitted option takes its default; a given spring configuration
      replaces the default as a whole, so its missing mass is not filled
      in with 0.5. */
  function Resolve(options: CardOptions): (r: Settings)
    ensures options.rotationRange.None? ==> r.rotationRange == 8.0
    ensures options.rotationRange.Some? ==> r.rotationRange == options.rotationRange.value
    ensures options.springConfig.None? ==> r.springConfig == SpringConfig(150.0, 20.0, Some(0.5))
    ensures options.springConfig.Some? ==> r.springConfig == options.springConfig.value
  {
    Settings(
      if options.rotationRange.Some? then options.rotationRange.value else DefaultRotationRange,
      if options.springConfig.Some? then options.springConfig.value else DefaultSpringConfig)
  }

  /** `getBoundingClientRect()` of the card: left, top, width, height. */
  datatype Rect = Rect(left: real, top: real, width: real, height: real)

  /** The pointer's offset from the rectangle's centre. */
  function Offset(clientX: real, clientY: real, rect: Rect): (r: (real, real))
    ensures rect.left + rect.width / 2.0 + r.0 == clientX
    ensures rect.top + rect.height / 2.0 + r.1 == clientY
  {
    (clientX - (rect.left + rect.width / 2.0), clientY - (rect.top + rect.height / 2.0))
  }

  /** A pointer at the centre gives no offset, and the offset grows with the
      pointer one for one. */
  lemma OffsetAtCentre(rect: Rect, dx: real, dy: real)
    ensures Offset(rect.left + rect.width / 2.0, rect.top + rect.height / 2.0, rect) == (0.0, 0.0)
    ensures Offset(rect.left + rect.width / 2.0 + dx, rect.top + rect.height / 2.0 + dy, rect) == (dx, dy)
  {
  }

  /** A zero-area box is not treated specially: the offset is measured
      from its corner, not reset to zero. */
  lemma DegenerateRectStillOffsets()
    ensures Offset(5.0, 7.0, Rect(0.0, 0.0, 0.0, 0.0)) == (5.0, 7.0)
  {
  }

  /** A `useTransform` mapping, given by its two declared endpoint pairs:
      `inputs.0` goes to `outputs.0` and `inputs.1` to `outputs.1`. */
  datatype EndpointPairs = EndpointPairs(inputs: (real, real), outputs: (real, real))

  /** `rotateX` from the vertical offset: above the centre tilts by
      +range, below by -range. */
  function RotateXPairs(range: real): (r: EndpointPairs)
    ensures r.inputs == (-100.0, 100.0)
    ensures r.outputs.0 == -r.outputs.1
    ensures r.outputs == (range, -range)
  {
    EndpointPairs((-100.0, 100.0), (range, -range))
  }

  /** `rotateY` from the horizontal offset: left of the centre tilts by
      -range, right by +range. */
  function RotateYPairs(range: real): (r: EndpointPairs)
    ensures r.inputs == (-100.0, 100.0)
    ensures r.outputs.0 == -r.outputs.1
    ensures r.outputs == (-range, range)
  {
    EndpointPairs((-100.0, 100.0), (-range, range))
  }

  /** The two axes mirror each other, and the pair stays within the range
      on both sides whatever its sign. */
  lemma RotationPairsMirror(range: real)
    ensures RotateXPairs(range).inputs == RotateYPairs(range).inputs
    ensures RotateXPairs(range).outputs.0 == RotateYPairs(range).outputs.1 == range
    ensures RotateXPairs(range).outputs.1 == RotateYPairs(range).outputs.0 == -range
  {
  }

  /** One card's hook state. */
  class TiltCard {
    const settings: Settings
    var isHovered: bool
    var x: real
    var y: real

    constructor (options: CardOptions)
      ensures settings == Resolve(options)
      ensures !isHovered && x == 0.0 && y == 0.0
    {
      settings := Resolve(options);
      isHovered := false;
      x := 0.0;
      y := 0.0;
    }

    /** `handleMouseMove`: the offsets are set from the pointer and the
        card's current box, not accumulated, so repeating a move changes
        nothing. */
    method MouseMove(clientX: real, clientY: real, rect: Rect)
      modifies this
      ensures (x, y) == Offset(clientX, clientY, rect)
      ensures isHovered == old(isHovered)
    {
      var o := Offset(clientX, clientY, rect);
      x, y := o.0, o.1;
    }

    /** `handleMouseEnter`: the hover flag only. */
    method MouseEnter()
      modifies this
      ensures isHovered
      ensures x == old(x) && y == old(y)
    {
      isHovered := true;
    }

    /** `handleMouseLeave`: back to rest. */
    method MouseLeave()
      modifies this
      ensures !isHovered && x == 0.0 && y == 0.0
    {
      x := 0.0;
      y := 0.0;
      isHovered := false;
    }

    /** The endpoint pairs for this card's rotation range. */
    function Rotations(): (r: (EndpointPairs, EndpointPairs))
      reads this
      ensures r.0.outputs == (settings.rotationRange, -settings.rotationRange)
      ensures r.1.outputs == (-settings.rotationRange, settings.rotationRange)
    {
      (RotateXPairs(settings.rotationRange), RotateYPairs(settings.rotationRange))
    }
  }
}
