/** Shared value types and the pixel-to-time mapping used by every part of
    the crop-window engine. All pixel and millisecond quantities are `real`. */
module Geometry {

  datatype Option<T> = None | Some(value: T)

  /** An axis-aligned rectangle given by its top-left corner and its size,
      the (left, top, width, height) quadruple fabric objects carry. */
  datatype Box = Box(left: real, top: real, width: real, height: real)
  {
    function Right(): real { left + width }
    function Bottom(): real { top + height }
  }

  /** Membership of a point in a box, half-open on the right and bottom
      edges so that boxes sharing an edge do not overlap. */
  predicate InBox(b: Box, x: real, y: real)
  {
    b.left <= x < b.left + b.width && b.top <= y < b.top + b.height
  }

  function Min(a: real, b: real): (r: real)
    ensures r <= a && r <= b && (r == a || r == b)
  {
    if a <= b then a else b
  }

  function Max(a: real, b: real): (r: real)
    ensures r >= a && r >= b && (r == a || r == b)
  {
    if a >= b then a else b
  }

  /** JavaScript's `x || d` on a number option: an absent value and a zero
      both fall back to the default. */
  function OrDefault(o: Option<real>, d: real): (r: real)
    ensures o.Some? && o.value != 0.0 ==> r == o.value
    ensures (o.None? || o.value == 0.0) ==> r == d
  {
    if o.Some? && o.value != 0.0 then o.value else d
  }

  /** The pixel-to-time mapping the handlers share: a pixel offset `px`
      on a strip `fullWidth` pixels wide that stands for `totalMs`
      milliseconds is `totalMs * (px / fullWidth)` milliseconds. */
  function PxToMs(px: real, fullWidth: real, totalMs: real): (ms: real)
    requires fullWidth != 0.0
    ensures px == 0.0 ==> ms == 0.0
    ensures px == fullWidth ==> ms == totalMs
    ensures 0.0 <= px <= fullWidth && 0.0 <= totalMs ==> 0.0 <= ms <= totalMs
  {
    var ratio := px / fullWidth;
    assert 0.0 <= px <= fullWidth ==> 0.0 <= ratio <= 1.0;
    totalMs * ratio
  }

  /** The mapping is monotone in the pixel offset for a non-negative
      duration on a strip of positive width. */
  lemma PxToMsMonotone(p: real, q: real, fullWidth: real, totalMs: real)
    requires fullWidth > 0.0 && totalMs >= 0.0 && p <= q
    ensures PxToMs(p, fullWidth, totalMs) <= PxToMs(q, fullWidth, totalMs)
  {
    assert p / fullWidth <= q / fullWidth;
  }
}
