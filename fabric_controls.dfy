/** The transform helpers of src/components/controls/fabric.ts, over
    resolved origins. */
module FabricControls {

  /** A transform origin after `resolveOrigin`: the left edge, the centre or
      the right edge (vertically: top, centre, bottom) of the object. */
  datatype Origin = Left | Center | Right

  /** The two side handles the crop rectangle carries (controls.ts). */
  datatype Corner = ML | MR

  /** The part of fabric's transform record the handlers read. */
  datatype Transform = Transform(corner: Corner, originX: Origin, originY: Origin)

  /** `isTransformCentered`: both origins resolve to the centre, the
      middle of the object on each axis. */
  predicate IsTransformCentered(t: Transform): (b: bool)
    ensures b <==> OriginFactor(t.originX) == 0.5 && OriginFactor(t.originY) == 0.5
  {
    t.originX == Center && t.originY == Center
  }

  /** The fraction of the object's width at which an origin sits, measured
      from its left edge (`resolveOrigin` + 0.5). */
  function OriginFactor(o: Origin): (f: real)
    ensures 0.0 <= f <= 1.0
    ensures f == 0.0 <==> o == Left
    ensures f == 1.0 <==> o == Right
  {
    match o
    case Left => 0.0
    case Center => 0.5
    case Right => 1.0
  }

  /** The x coordinate of the origin point of a box with this left edge and
      width (`translateToOriginPoint`, unrotated and unscaled). */
  function OriginPointX(o: Origin, left: real, width: real): real
  {
    left + width * OriginFactor(o)
  }

  /** The left edge `setPositionByOrigin` gives an object whose width went
      from `oldWidth` to `newWidth` so that its origin point stays where it
      was: `wrapWithFixedAnchor` restores the point it captured before the
      inner handler ran. */
  function AnchoredLeft(o: Origin, oldLeft: real, oldWidth: real, newWidth: real): (left: real)
    ensures OriginPointX(o, left, newWidth) == OriginPointX(o, oldLeft, oldWidth)
    ensures o == Left ==> left == oldLeft
    ensures o == Right ==> left + newWidth == oldLeft + oldWidth
  {
    oldLeft + (oldWidth - newWidth) * OriginFactor(o)
  }

  /** The anchor left edge is the only left edge that keeps the origin point
      fixed: whatever the inner handler wrote to `left` is superseded. */
  lemma AnchorUnique(o: Origin, oldLeft: real, oldWidth: real, newWidth: real, left: real)
    requires OriginPointX(o, left, newWidth) == OriginPointX(o, oldLeft, oldWidth)
    ensures left == AnchoredLeft(o, oldLeft, oldWidth, newWidth)
  {
  }
}
