/** The edge-resize handler of src/components/controls/change-width.ts and
    its composition with the fixed-anchor wrapper. The pointer position is
    taken already converted to the target's local x (`localX`) and to the
    requested width (`newWidth`). */
module ChangeWidth {
  import opened Geometry
  import opened Store
  import opened CanvasCrop
  import opened CropRect
  import opened FabricControls

  /** The guard: a handle changes the width only from its own side of the
      target (a centred origin always passes). A side origin passes exactly
      when the pointer lies on the far side of the centre from the origin. */
  predicate SidePasses(originX: Origin, localX: real): (b: bool)
    ensures originX == Center ==> b
    ensures originX != Center ==> (b <==> localX * (OriginFactor(originX) - 0.5) < 0.0)
  {
    originX == Center || (originX == Right && localX < 0.0) || (originX == Left && localX > 0.0)
  }

  /** A centred transform passes the guard whatever the pointer. */
  lemma CenteredPassesGuard(t: Transform, localX: real)
    requires IsTransformCentered(t)
    ensures SidePasses(t.originX, localX)
  {
  }

  /** The effective width cap: `maxWidth || initialWidth`. */
  function CapWidth(g: CropGeometry): (cap: real)
    ensures g.maxWidth != 0.0 ==> cap == g.maxWidth
    ensures g.maxWidth == 0.0 ==> cap == g.initialWidth
  {
    if g.maxWidth != 0.0 then g.maxWidth else g.initialWidth
  }

  /** The left edge the requested width would give before any correction:
      the right handle keeps the left edge, the left handle keeps the right
      edge. */
  function NextLeft(g: CropGeometry, corner: Corner, newWidth: real): (n: real)
    ensures corner == MR ==> n == g.left
    ensures corner == ML ==> n + newWidth == g.left + g.width
  {
    g.left + (if corner == MR then 0.0 else g.width - newWidth)
  }

  /** What one call of `changeObjectWidth` does: the left edge and width it
      writes, the value it returns, whether it asks the player to seek to
      the start and the crop time it reports, if any. */
  datatype ResizeEffect = ResizeEffect(
    left: real, width: real, changed: bool, seeksToStart: bool, cropTimeMs: Option<real>)

  function ResizeStep(g: CropGeometry, t: Transform, localX: real, newWidth: real, totalMs: real): (e: ResizeEffect)
    requires g.initialWidth != 0.0
    // a handle dragged on its wrong side does nothing at all
    ensures !SidePasses(t.originX, localX) ==> e == ResizeEffect(g.left, g.width, false, false, None)
    // the left handle rewinds the player once per accepted call
    ensures e.seeksToStart <==> SidePasses(t.originX, localX) && t.corner == ML
    // past the strip start: left edge zero, width restored or capped, no crop time
    ensures SidePasses(t.originX, localX) && NextLeft(g, t.corner, newWidth) < 0.0 ==>
      e.left == 0.0 && e.width == (if newWidth < CapWidth(g) then g.width else CapWidth(g))
      && !e.changed && e.cropTimeMs.None?
    // over the cap: width exactly the cap
    // (the left handle's write moves the left edge the wrong way, by the
    // width gained; the anchor supersedes it)
    ensures SidePasses(t.originX, localX) && NextLeft(g, t.corner, newWidth) >= 0.0 && newWidth > CapWidth(g) ==>
      && e.width == CapWidth(g) && !e.changed && e.cropTimeMs.None?
      && e.left == (if t.corner == MR then g.left else g.left + (CapWidth(g) - g.width))
    // otherwise: width at least one pixel, crop time of the new left edge
    ensures e.cropTimeMs.Some? <==>
      SidePasses(t.originX, localX) && NextLeft(g, t.corner, newWidth) >= 0.0 && newWidth <= CapWidth(g)
    ensures e.cropTimeMs.Some? ==>
      e.left == g.left && e.width == Max(newWidth, 1.0)
      && e.cropTimeMs.value == PxToMs(NextLeft(g, t.corner, newWidth), g.initialWidth, totalMs)
    ensures e.changed <==> e.cropTimeMs.Some? && e.width != g.width
    // a width within [1, cap] stays within [1, cap]
    ensures 1.0 <= g.width <= CapWidth(g) ==> 1.0 <= e.width <= CapWidth(g)
  {
    if !SidePasses(t.originX, localX) then
      ResizeEffect(g.left, g.width, false, false, None)
    else
      var cap := CapWidth(g);
      var seek := t.corner == ML;
      var nextLeft := NextLeft(g, t.corner, newWidth);
      if nextLeft < 0.0 then
        ResizeEffect(0.0, if newWidth < cap then g.width else cap, false, seek, None)
      else if newWidth > cap then
        ResizeEffect(if t.corner == MR then g.left else g.left + (cap - g.width), cap, false, seek, None)
      else
        var w := Max(newWidth, 1.0);
        ResizeEffect(g.left, w, w != g.width, seek, Some(PxToMs(nextLeft, g.initialWidth, totalMs)))
  }

  /** `changeObjectWidth` on its own, without the anchor wrapper. */
  method ChangeObjectWidth(target: VideoCropRect, t: Transform, localX: real, newWidth: real)
    returns (changed: bool)
    requires target.canvas != null && target.initialWidth != 0.0
    modifies target`left, target`width, target.canvas.playerRef, target.canvas.store
    ensures
      var e := ResizeStep(old(target.Geometry()), t, localX, newWidth, target.canvas.totalDurationMs);
      && target.left == e.left && target.width == e.width && changed == e.changed
      && (target.canvas.playerRef != null ==>
            target.canvas.playerRef.seekLog
              == old(target.canvas.playerRef.seekLog) + (if e.seeksToStart then [0.0] else []))
      && (target.canvas.store != null ==>
            target.canvas.store.State()
              == if e.cropTimeMs.Some? then old(target.canvas.store.State()).(cropTimeMs := e.cropTimeMs.value)
                 else old(target.canvas.store.State()))
  {
    changed := false;
    if !SidePasses(t.originX, localX) {
      return;
    }
    var canvas := target.canvas;
    var oldWidth := target.width;
    var maxWidth := if target.maxWidth != 0.0 then target.maxWidth else target.initialWidth;
    if t.corner == ML && canvas.playerRef != null {
      canvas.playerRef.SeekTo(0.0);
    }
    var diffPos := oldWidth - newWidth;
    var nextLeft := target.left + (if t.corner == MR then 0.0 else diffPos);
    // In both branches below the handler's `setCropTimeMs(0)` is guarded by
    // `left !== 0` right after `left := 0`, so it is never reached.
    if nextLeft < 0.0 && newWidth < maxWidth {
      target.left := 0.0;
      target.width := oldWidth;
      return;
    } else if nextLeft < 0.0 && newWidth >= maxWidth {
      target.left := 0.0;
      target.width := maxWidth;
      return;
    }
    if t.corner == MR {
      if newWidth > maxWidth {
        target.width := maxWidth;
        return;
      }
    } else {
      if newWidth > maxWidth {
        var diffWidth := maxWidth - oldWidth;
        target.width := maxWidth;
        target.left := target.left + diffWidth;
        return;
      }
    }
    target.width := Max(newWidth, 1.0);
    // `totalDurationMs / (initialWidth / nextLeft)`, which is this exact
    // value; at nextLeft = 0 the floating-point division gives 0 as well.
    canvas.SetCropTimeMs(canvas.totalDurationMs * (nextLeft / target.initialWidth));
    changed := oldWidth != target.width;
  }

  /** The crop geometry after the anchored handler (`changeWidth`). */
  function AnchoredStep(g: CropGeometry, t: Transform, localX: real, newWidth: real, totalMs: real): (r: CropGeometry)
    requires g.initialWidth != 0.0
    // the width is the inner handler's, the origin point is where it was
    ensures r.width == ResizeStep(g, t, localX, newWidth, totalMs).width
    ensures OriginPointX(t.originX, r.left, r.width) == OriginPointX(t.originX, g.left, g.width)
    ensures r == g.(left := r.left, width := r.width)
  {
    var e := ResizeStep(g, t, localX, newWidth, totalMs);
    g.(left := AnchoredLeft(t.originX, g.left, g.width, e.width), width := e.width)
  }

  /** `changeWidth` = `wrapWithFixedAnchor(changeObjectWidth)`: the inner
      handler runs once, its result is returned unchanged, and the origin
      point captured before it is restored afterwards. */
  method ChangeWidth(target: VideoCropRect, t: Transform, localX: real, newWidth: real)
    returns (performed: bool)
    requires target.canvas != null && target.initialWidth != 0.0
    modifies target`left, target`width, target.canvas.playerRef, target.canvas.store
    ensures
      var e := ResizeStep(old(target.Geometry()), t, localX, newWidth, target.canvas.totalDurationMs);
      && target.Geometry() == AnchoredStep(old(target.Geometry()), t, localX, newWidth, target.canvas.totalDurationMs)
      && performed == e.changed
      && (target.canvas.playerRef != null ==>
            target.canvas.playerRef.seekLog
              == old(target.canvas.playerRef.seekLog) + (if e.seeksToStart then [0.0] else []))
      && (target.canvas.store != null ==>
            target.canvas.store.State()
              == if e.cropTimeMs.Some? then old(target.canvas.store.State()).(cropTimeMs := e.cropTimeMs.value)
                 else old(target.canvas.store.State()))
  {
    var oldLeft, oldWidth := target.left, target.width;
    performed := ChangeObjectWidth(target, t, localX, newWidth);
    target.left := AnchoredLeft(t.originX, oldLeft, oldWidth, target.width);
  }

  /** The right handle (origin on the left) keeps the left edge, and the
      left handle (origin on the right) keeps the right edge, whatever the
      inner handler wrote to `left`. */
  lemma AnchoredKeepsOriginEdge(g: CropGeometry, t: Transform, localX: real, newWidth: real, totalMs: real)
    requires g.initialWidth != 0.0
    ensures var r := AnchoredStep(g, t, localX, newWidth, totalMs);
      && (t.originX == Left ==> r.left == g.left)
      && (t.originX == Right ==> r.left + r.width == g.left + g.width)
      && r.top == g.top && r.height == g.height && r.initialWidth == g.initialWidth && r.maxWidth == g.maxWidth
  {
  }

  /** The anchored width stays within [1, cap] when it starts there. */
  lemma AnchoredWidthBounds(g: CropGeometry, t: Transform, localX: real, newWidth: real, totalMs: real)
    requires g.initialWidth != 0.0 && 1.0 <= g.width <= CapWidth(g)
    ensures 1.0 <= AnchoredStep(g, t, localX, newWidth, totalMs).width <= CapWidth(g)
  {
  }

  /** With the left handle the `left := 0` writes do not survive: the new
      left edge is the old right edge minus the new width. It is still at
      least zero except when the request passes both the strip start and
      the cap. */
  lemma LeftHandleLeftEdge(g: CropGeometry, localX: real, newWidth: real, totalMs: real)
    requires g.initialWidth != 0.0 && 0.0 <= g.left && 1.0 <= g.width
    ensures var t := Transform(ML, Right, Center); var r := AnchoredStep(g, t, localX, newWidth, totalMs);
      && r.left == g.left + g.width - r.width
      && (!(NextLeft(g, ML, newWidth) < 0.0 && newWidth >= CapWidth(g) && SidePasses(Right, localX)) ==> r.left >= 0.0)
  {
  }

  /** The left handle dragged past the strip start with a request at the
      cap leaves the left edge negative until the next "modified" event, if
      one fires, resets it:
      left 50, width 100 on a 500-pixel strip, request 500. */
  lemma LeftHandleOvershoot()
    ensures var g := CropGeometry(50.0, 0.0, 100.0, 80.0, 500.0, 0.0);
      var r := AnchoredStep(g, Transform(ML, Right, Center), -500.0, 500.0, 10000.0);
      r.left == -350.0 && r.width == 500.0
  {
  }

  /** The right handle is capped in width only: a request within the cap
      can carry the right edge past the strip end. Left 300, width 100 on a
      500-pixel strip, request 400. */
  lemma RightHandleOvershoot()
    ensures var g := CropGeometry(300.0, 0.0, 100.0, 80.0, 500.0, 0.0);
      var r := AnchoredStep(g, Transform(MR, Left, Center), 400.0, 400.0, 10000.0);
      r.left == 300.0 && r.width == 400.0 && r.left + r.width > g.initialWidth
  {
  }

  /** Left handle from (100, 200) on a 500-pixel strip to width 150: the
      right edge stays at 300. */
  lemma LeftHandleExample()
    ensures var g := CropGeometry(100.0, 0.0, 200.0, 80.0, 500.0, 0.0);
      var r := AnchoredStep(g, Transform(ML, Right, Center), -150.0, 150.0, 10000.0);
      r.left == 150.0 && r.width == 150.0
  {
  }

  /** Right handle from (100, 200) on a 500-pixel strip to width 250. */
  lemma RightHandleExample()
    ensures var g := CropGeometry(100.0, 0.0, 200.0, 80.0, 500.0, 0.0);
      var r := AnchoredStep(g, Transform(MR, Left, Center), 250.0, 250.0, 10000.0);
      r.left == 100.0 && r.width == 250.0
  {
  }

  /** With a 200-pixel cap a right-handle request of 300 gives exactly 200. */
  lemma RightHandleCapExample()
    ensures var g := CropGeometry(100.0, 0.0, 150.0, 80.0, 500.0, 200.0);
      var r := AnchoredStep(g, Transform(MR, Left, Center), 300.0, 300.0, 10000.0);
      r.left == 100.0 && r.width == 200.0
  {
  }
}
