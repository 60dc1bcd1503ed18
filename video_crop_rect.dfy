/** The crop rectangle of src/components/video-crop-rect.ts: the selected
    window on the thumbnail strip, its drag-move clamp, its commit on
    "modified", its re-sync to the strip and its percentage accessors. */
module CropRect {
  import opened Geometry
  import opened Store
  import opened CanvasCrop

  /** The fabric actions a transform can end with; only "drag" is told
      apart by the handlers. */
  datatype TransformAction = Drag | Resizing | OtherAction

  /** The geometry fields of the crop rectangle as one value. */
  datatype CropGeometry = CropGeometry(
    left: real, top: real, width: real, height: real,
    initialWidth: real, maxWidth: real)

  /** Optional constructor arguments (`VideoCropRectOptions`). */
  datatype CropRectOptions = CropRectOptions(
    left: Option<real>, top: Option<real>, width: Option<real>, height: Option<real>,
    maxDurationMs: Option<real>, initialDurationMs: Option<real>)

  /** Where the first "moving" listener leaves the left edge of a selection
      `width` pixels wide on a strip `fullWidth` pixels wide. */
  function MoveClamp(left: real, width: real, fullWidth: real): (r: real)
    ensures width <= fullWidth ==> 0.0 <= r && r + width <= fullWidth
    ensures width <= fullWidth ==> r == Min(Max(left, 0.0), fullWidth - width)
    ensures width == fullWidth ==> r == 0.0
    ensures 0.0 <= left && left + width <= fullWidth ==> r == left
    ensures width > fullWidth ==> r == fullWidth - width
  {
    if width >= fullWidth then fullWidth - width else Min(Max(left, 0.0), fullWidth - width)
  }

  /** Clamping an already clamped left edge changes nothing. */
  lemma MoveClampIdempotent(left: real, width: real, fullWidth: real)
    ensures MoveClamp(MoveClamp(left, width, fullWidth), width, fullWidth)
         == MoveClamp(left, width, fullWidth)
  {
  }

  /** The crop time the second "moving" listener reports after the clamp
      lies between zero and the start time of the last position the
      selection fits in. */
  lemma MoveCropTimeInRange(left: real, width: real, fullWidth: real, totalMs: real)
    requires 0.0 <= width <= fullWidth && fullWidth > 0.0 && totalMs >= 0.0
    ensures 0.0 <= PxToMs(MoveClamp(left, width, fullWidth), fullWidth, totalMs)
                <= PxToMs(fullWidth - width, fullWidth, totalMs)
    ensures PxToMs(fullWidth - width, fullWidth, totalMs) <= totalMs
  {
    var l := MoveClamp(left, width, fullWidth);
    PxToMsMonotone(0.0, l, fullWidth, totalMs);
    PxToMsMonotone(l, fullWidth - width, fullWidth, totalMs);
  }

  /** A percentage clamped into [0, 100]. */
  function ClampPct(p: real): (c: real)
    ensures 0.0 <= c <= 100.0
    ensures 0.0 <= p <= 100.0 ==> c == p
    ensures p < 0.0 ==> c == 0.0
    ensures p > 100.0 ==> c == 100.0
  {
    Max(0.0, Min(100.0, p))
  }

  /** The pixel value a percentage setter stores. */
  function PctToPx(p: real, canvasWidth: real): (px: real)
    ensures canvasWidth >= 0.0 ==> 0.0 <= px <= canvasWidth
  {
    var fraction := ClampPct(p) / 100.0;
    assert 0.0 <= fraction <= 1.0;
    assert canvasWidth >= 0.0 ==> fraction * canvasWidth <= 1.0 * canvasWidth;
    fraction * canvasWidth
  }

  /** The left edge `constrainToCanvas` settles on. */
  function ConstrainLeft(left: real, width: real, canvasWidth: real): (r: real)
    ensures 0.0 <= r
    ensures width <= canvasWidth ==> r + width <= canvasWidth
    ensures 0.0 <= left && left + width <= canvasWidth ==> r == left
    ensures left < 0.0 ==> r == 0.0
  {
    Max(0.0, Min(canvasWidth - width, left))
  }

  lemma ConstrainLeftIdempotent(left: real, width: real, canvasWidth: real)
    ensures ConstrainLeft(ConstrainLeft(left, width, canvasWidth), width, canvasWidth)
         == ConstrainLeft(left, width, canvasWidth)
  {
  }

  /** The geometry `syncWithVideoThumbnailRect` gives the crop rectangle:
      the strip's box, the strip's width as the reference width and, when a
      maximum duration is set, a selection (and cap) of that duration. */
  function Synced(g: CropGeometry, strip: Box, maxDurationMs: real, initialDurationMs: real): (s: CropGeometry)
    requires maxDurationMs != 0.0 ==> initialDurationMs != 0.0
    ensures s.left == strip.left && s.top == strip.top && s.height == strip.height
    ensures s.initialWidth == strip.width
    ensures maxDurationMs == 0.0 ==> s.width == strip.width && s.maxWidth == g.maxWidth
    ensures maxDurationMs != 0.0 ==> s.width == s.maxWidth
  {
    var base := CropGeometry(strip.left, strip.top, strip.width, strip.height, strip.width, g.maxWidth);
    if maxDurationMs != 0.0 then
      var factor := maxDurationMs / initialDurationMs;
      base.(width := strip.width * factor, maxWidth := strip.width * factor)
    else
      base
  }

  /** With a maximum duration set, the re-synced selection stands for
      exactly that duration on the strip's time scale. */
  lemma SyncedSelectsMaxDuration(g: CropGeometry, strip: Box, maxDurationMs: real, initialDurationMs: real)
    requires maxDurationMs != 0.0 && initialDurationMs != 0.0 && strip.width != 0.0
    ensures PxToMs(Synced(g, strip, maxDurationMs, initialDurationMs).width, strip.width, initialDurationMs)
         == maxDurationMs
  {
    var factor := maxDurationMs / initialDurationMs;
    assert strip.width * factor / strip.width == factor;
    assert initialDurationMs * factor == maxDurationMs;
  }

  /** Re-syncing twice with the same strip is re-syncing once. */
  lemma SyncedIdempotent(g: CropGeometry, strip: Box, maxDurationMs: real, initialDurationMs: real)
    requires maxDurationMs != 0.0 ==> initialDurationMs != 0.0
    ensures Synced(Synced(g, strip, maxDurationMs, initialDurationMs), strip, maxDurationMs, initialDurationMs)
         == Synced(g, strip, maxDurationMs, initialDurationMs)
  {
  }

  class VideoCropRect {
    var left: real
    var top: real
    var width: real
    var height: real
    var initialWidth: real
    var initialDurationMs: real
    var maxDurationMs: real
    var maxWidth: real
    /** The canvas the rectangle was added to (fabric's `target.canvas`). */
    var canvas: CanvasVideoCrop?

    function Geometry(): CropGeometry
      reads this
    {
      CropGeometry(left, top, width, height, initialWidth, maxWidth)
    }

    function Bounds(): Box
      reads this
    {
      Box(left, top, width, height)
    }

    constructor(options: CropRectOptions)
      ensures Bounds() == Box(OrDefault(options.left, 0.0), OrDefault(options.top, 0.0),
                              OrDefault(options.width, 200.0), OrDefault(options.height, 100.0))
      ensures initialWidth == OrDefault(options.width, 200.0)
      ensures initialDurationMs == OrDefault(options.initialDurationMs, 0.0)
      ensures maxDurationMs == OrDefault(options.maxDurationMs, 0.0)
      ensures maxWidth == 0.0 && canvas == null
    {
      left := OrDefault(options.left, 0.0);
      top := OrDefault(options.top, 0.0);
      width := OrDefault(options.width, 200.0);
      height := OrDefault(options.height, 100.0);
      initialWidth := OrDefault(options.width, 200.0);
      initialDurationMs := OrDefault(options.initialDurationMs, 0.0);
      maxDurationMs := OrDefault(options.maxDurationMs, 0.0);
      maxWidth := 0.0;
      canvas := null;
    }

    /** The first "moving" listener: three successive corrections of the
        left edge proposed by the drag. */
    method OnMovingClamp()
      modifies this`left
      ensures left == MoveClamp(old(left), width, initialWidth)
    {
      if left <= 0.0 {
        left := 0.0;
      }
      if width >= initialWidth && left >= 0.0 {
        left := 0.0;
      }
      if left + width >= initialWidth {
        left := initialWidth - width;
      }
    }

    /** The second "moving" listener: report the crop start time of the
        (already clamped) left edge through the canvas callback. */
    method OnMovingCropTime()
      requires canvas != null && initialWidth != 0.0
      modifies canvas.store
      ensures canvas.store != null ==>
        canvas.store.State() == old(canvas.store.State()).(cropTimeMs := PxToMs(left, initialWidth, canvas.totalDurationMs))
    {
      var factorWidth := left / initialWidth;
      canvas.SetCropTimeMs(canvas.totalDurationMs * factorWidth);
    }

    /** The "modified" listener: a left edge past the strip start is reset
        to zero, and a transform other than a plain drag commits the
        selected duration to the store and to the canvas. */
    method OnModified(action: TransformAction)
      requires canvas != null
      requires action != Drag ==> initialWidth != 0.0
      modifies this`left, canvas`durationMs, canvas.store
      ensures left == Max(old(left), 0.0)
      ensures action != Drag ==> canvas.durationMs == PxToMs(width, initialWidth, canvas.totalDurationMs)
      ensures action != Drag && canvas.store != null ==>
        canvas.store.State() == old(canvas.store.State()).(durationMs := PxToMs(width, initialWidth, canvas.totalDurationMs))
      ensures action == Drag ==> canvas.durationMs == old(canvas.durationMs)
      ensures action == Drag && canvas.store != null ==> canvas.store.State() == old(canvas.store.State())
    {
      if left < 0.0 {
        left := 0.0;
      }
      if action != Drag {
        var factorWidth := width / initialWidth;
        canvas.SetDurationMs(canvas.totalDurationMs * factorWidth);
        canvas.durationMs := canvas.totalDurationMs * factorWidth;
      }
    }

    /** `syncWithVideoThumbnailRect`, given the strip's box. */
    method SyncWithVideoThumbnailRect(strip: Box)
      requires maxDurationMs != 0.0 ==> initialDurationMs != 0.0
      modifies this`left, this`top, this`width, this`height, this`initialWidth, this`maxWidth
      ensures Geometry() == Synced(old(Geometry()), strip, maxDurationMs, initialDurationMs)
    {
      left, top, width, height := strip.left, strip.top, strip.width, strip.height;
      initialWidth := strip.width;
      if maxDurationMs != 0.0 {
        var factorDuration := maxDurationMs / initialDurationMs;
        width, maxWidth := initialWidth * factorDuration, initialWidth * factorDuration;
      }
    }

    /** `getHorizontalPercentage`. */
    function GetHorizontalPercentage(canvasWidth: real): (pct: real)
      reads this
      requires canvasWidth != 0.0
      ensures 0.0 <= pct <= 100.0
      ensures 0.0 <= left / canvasWidth * 100.0 <= 100.0 ==> pct == left / canvasWidth * 100.0
    {
      ClampPct(left / canvasWidth * 100.0)
    }

    /** `getWidthPercentage`. */
    function GetWidthPercentage(canvasWidth: real): (pct: real)
      reads this
      requires canvasWidth != 0.0
      ensures 0.0 <= pct <= 100.0
      ensures 0.0 <= width / canvasWidth * 100.0 <= 100.0 ==> pct == width / canvasWidth * 100.0
    {
      ClampPct(width / canvasWidth * 100.0)
    }

    method SetHorizontalPercentage(percentage: real, canvasWidth: real)
      modifies this`left
      ensures left == PctToPx(percentage, canvasWidth)
    {
      var clampedPercentage := Max(0.0, Min(100.0, percentage));
      left := clampedPercentage / 100.0 * canvasWidth;
    }

    method SetWidthPercentage(percentage: real, canvasWidth: real)
      modifies this`width
      ensures width == PctToPx(percentage, canvasWidth)
    {
      var clampedPercentage := Max(0.0, Min(100.0, percentage));
      width := clampedPercentage / 100.0 * canvasWidth;
    }

    method ConstrainToCanvas(canvasWidth: real)
      modifies this`left
      ensures left == ConstrainLeft(old(left), width, canvasWidth)
    {
      var currentLeft := left;
      var maxLeft := canvasWidth - width;
      var constrainedLeft := Max(0.0, Min(maxLeft, currentLeft));
      if constrainedLeft != currentLeft {
        left := constrainedLeft;
      }
    }
  }

  /** Reading back a percentage that was just set gives the clamped
      percentage. */
  lemma PercentRoundTrip(r: VideoCropRect, p: real, canvasWidth: real)
    requires canvasWidth != 0.0 && r.left == PctToPx(p, canvasWidth)
    ensures r.GetHorizontalPercentage(canvasWidth) == ClampPct(p)
  {
    var c := ClampPct(p);
    assert r.left / canvasWidth == c / 100.0;
  }

  lemma WidthPercentRoundTrip(r: VideoCropRect, p: real, canvasWidth: real)
    requires canvasWidth != 0.0 && r.width == PctToPx(p, canvasWidth)
    ensures r.GetWidthPercentage(canvasWidth) == ClampPct(p)
  {
    var c := ClampPct(p);
    assert r.width / canvasWidth == c / 100.0;
  }
}
