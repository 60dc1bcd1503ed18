/** The timeline component of src/components/timeline-canvas.tsx: the
    playhead arithmetic, and the setup and event wiring that keeps the mask's
    crop area equal to the crop rectangle's geometry. */
module Timeline {
  import opened Geometry
  import opened Store
  import opened CanvasCrop
  import opened CropRect
  import opened CropMask
  import opened Thumbnails
  import opened FabricControls
  import opened ChangeWidth

  /** Height of the canvas and of every object on it. */
  const TimelineHeight: real := 80.0

  /** Horizontal padding of the container (8 pixels on each side). */
  const ContainerPadding: real := 16.0

  /** `totalFrames`: the whole frames in the total duration, or 1 when there
      is no duration. */
  function TotalFrames(totalDurationMs: real, fps: real): (n: int)
    ensures totalDurationMs <= 0.0 ==> n == 1
    ensures totalDurationMs > 0.0 ==>
      (n as real) * 1000.0 <= totalDurationMs * fps < ((n + 1) as real) * 1000.0
    ensures totalDurationMs > 0.0 && fps >= 0.0 ==> n >= 0
  {
    if totalDurationMs > 0.0 then
      var frames := totalDurationMs * fps / 1000.0;
      var n := frames.Floor;
      assert (n as real) <= frames < (n as real) + 1.0;
      assert frames * 1000.0 == totalDurationMs * fps;
      n
    else 1
  }

  /** `playheadPosition`: the x of frame `frame` on a timeline
      `containerWidth` pixels wide showing `totalFrames` frames. */
  function PlayheadPosition(frame: real, containerWidth: real, totalFrames: int): (x: real)
    ensures totalFrames <= 0 ==> x == 0.0
    ensures frame == 0.0 ==> x == 0.0
    ensures totalFrames > 0 && frame == totalFrames as real ==> x == containerWidth
    ensures totalFrames > 0 && containerWidth >= 0.0 && 0.0 <= frame <= totalFrames as real ==>
      0.0 <= x <= containerWidth
  {
    if totalFrames > 0 then
      var tf := totalFrames as real;
      assert 0.0 <= frame <= tf ==> frame / tf <= 1.0;
      assert frame * containerWidth / tf == (frame / tf) * containerWidth;
      frame * containerWidth / tf
    else 0.0
  }

  /** The playhead moves right, never left, as the frame advances. */
  lemma PlayheadMonotone(f1: real, f2: real, containerWidth: real, totalFrames: int)
    requires f1 <= f2 && containerWidth >= 0.0
    ensures PlayheadPosition(f1, containerWidth, totalFrames) <= PlayheadPosition(f2, containerWidth, totalFrames)
  {
    if totalFrames > 0 {
      var tf := totalFrames as real;
      assert f1 * containerWidth <= f2 * containerWidth;
      assert f1 * containerWidth / tf <= f2 * containerWidth / tf;
    }
  }

  /** `playheadPositionCrop`: the offset of the crop start, at the same scale
      as the playhead. It divides by `totalFrames` without a zero guard. */
  function PlayheadPositionCrop(cropTimeMs: real, fps: real, containerWidth: real, totalFrames: int): (x: real)
    requires totalFrames != 0
    ensures totalFrames > 0 ==> x == PlayheadPosition(cropTimeMs * fps / 1000.0, containerWidth, totalFrames)
    ensures cropTimeMs == 0.0 ==> x == 0.0
  {
    var factorCropFrames := cropTimeMs * fps / 1000.0;
    factorCropFrames * containerWidth / (totalFrames as real)
  }

  /** The x of the cursor (`left` of the playhead element): the player's
      frame counted from the crop start, plus the two-pixel inset. */
  function CursorX(currentFrame: int, cropTimeMs: real, fps: real, containerWidth: real, totalDurationMs: real): (x: real)
    requires TotalFrames(totalDurationMs, fps) != 0
    ensures var tf := TotalFrames(totalDurationMs, fps);
      tf > 0 ==> x == PlayheadPosition((currentFrame as real) + cropTimeMs * fps / 1000.0, containerWidth, tf) + 2.0
    ensures currentFrame == 0 && cropTimeMs == 0.0 ==> x == 2.0
  {
    var tf := TotalFrames(totalDurationMs, fps);
    var playhead := PlayheadPosition(currentFrame as real, containerWidth, tf);
    var crop := PlayheadPositionCrop(cropTimeMs, fps, containerWidth, tf);
    assert tf > 0 ==>
      playhead + crop
        == ((currentFrame as real) + cropTimeMs * fps / 1000.0) * containerWidth / (tf as real);
    playhead + crop + 2.0
  }

  /** When the total duration is a whole number of frames, the crop offset
      of the cursor is the crop rectangle's left edge rescaled from the strip
      width to the container width. */
  lemma CropOffsetTracksLeftEdge(left: real, initialWidth: real, totalDurationMs: real, fps: real,
                                 containerWidth: real, totalFrames: int)
    requires initialWidth != 0.0 && totalFrames > 0
    requires totalFrames as real == totalDurationMs * fps / 1000.0
    ensures PlayheadPositionCrop(PxToMs(left, initialWidth, totalDurationMs), fps, containerWidth, totalFrames)
         == left / initialWidth * containerWidth
  {
    var ratio := left / initialWidth;
    var tf := totalFrames as real;
    assert PxToMs(left, initialWidth, totalDurationMs) * fps / 1000.0 == ratio * (totalDurationMs * fps / 1000.0);
    assert ratio * tf * containerWidth / tf == ratio * containerWidth;
  }

  /** The React component's state once mounted: the fabric canvas and the
      objects the setup effect adds to it, with the store it reads. */
  class TimelineCanvas {
    /** The store the component subscribes to; its setters are the canvas
        callbacks. */
    const store: PlayerStore
    /** The component's props. */
    const videoFile: Option<VideoFile>
    const maxDurationMs: Option<real>

    var canvas: CanvasVideoCrop?
    /** Width of the background timeline rectangle. */
    var timelineWidth: real
    /** The canvas width and the store duration captured by the setup
        effect, as its closures see them. */
    var canvasWidth: real
    var initialDurationMs: real
    var strip: VideoThumbnailRect?
    var crop: VideoCropRect?
    var mask: VideoCropMask?

    constructor(store: PlayerStore, videoFile: Option<VideoFile>, maxDurationMs: Option<real>)
      ensures this.store == store && this.videoFile == videoFile && this.maxDurationMs == maxDurationMs
      ensures canvas == null && strip == null && crop == null && mask == null
      ensures Valid() && MaskSynced()
    {
      this.store := store;
      this.videoFile := videoFile;
      this.maxDurationMs := maxDurationMs;
      canvas := null;
      timelineWidth := 0.0;
      canvasWidth := 0.0;
      initialDurationMs := 0.0;
      strip := null;
      crop := null;
      mask := null;
    }

    /** The wiring between the objects: the canvas reports to this
        component's store, and a crop rectangle lives on the canvas together
        with its strip and mask. */
    predicate Valid()
      reads this, canvas, crop
    {
      && (canvas != null ==> canvas.store == store)
      && (crop != null ==>
            && canvas != null && crop.canvas == canvas && strip != null && mask != null
            && (crop.maxDurationMs != 0.0 ==> crop.initialDurationMs != 0.0))
    }

    /** The strip, crop rectangle and mask once created, as frames. */
    ghost function StripObject(): set<VideoThumbnailRect>
      reads this
    {
      if strip == null then {} else {strip}
    }

    ghost function CropObject(): set<VideoCropRect>
      reads this
    {
      if crop == null then {} else {crop}
    }

    ghost function MaskObject(): set<VideoCropMask>
      reads this
    {
      if mask == null then {} else {mask}
    }

    /** The mask's crop area is the crop rectangle's geometry. */
    predicate MaskSynced()
      reads this, crop, mask
    {
      crop != null && mask != null ==> mask.CropArea() == crop.Bounds()
    }

    /** The setup effect: nothing without a canvas element, a player or a
        loaded video; otherwise `maxDurationMs` goes to the store, and the
        canvas is built from the container width and from the duration the
        component read before that update. */
    method Mount(hasCanvasElement: bool, parentClientWidth: Option<real>, windowInnerWidth: real)
      returns (mounted: bool)
      requires Valid() && MaskSynced()
      modifies this, store
      ensures mounted == (hasCanvasElement && old(store.playerRef) != null && old(store.loadVideo))
      ensures !mounted ==> unchanged(this) && unchanged(store)
      ensures mounted ==>
        var w := OrDefault(parentClientWidth, windowInnerWidth) - ContainerPadding;
        && canvas != null && fresh(canvas)
        && canvas.width == w && canvas.height == TimelineHeight
        && canvas.playerRef == old(store.playerRef) && canvas.store == store
        && canvas.durationMs == old(store.durationMs) && canvas.totalDurationMs == old(store.durationMs)
        && canvas.fps == OrDefault(Some(old(store.fps)), 30.0)
        && timelineWidth == w && canvasWidth == w && initialDurationMs == old(store.durationMs)
        && strip == null && crop == null && mask == null
        && store.State() == (if OrDefault(maxDurationMs, 0.0) != 0.0
                             then old(store.State()).(durationMs := maxDurationMs.value)
                             else old(store.State()))
      ensures Valid() && MaskSynced()
    {
      mounted := false;
      if !hasCanvasElement || store.playerRef == null || !store.loadVideo {
        return;
      }
      mounted := true;
      // The component read `durationMs` when it rendered, before the update.
      var durationMs := store.durationMs;
      if OrDefault(maxDurationMs, 0.0) != 0.0 {
        store.SetDurationMs(maxDurationMs.value);
      }
      initialDurationMs := durationMs;
      var containerWidth := OrDefault(parentClientWidth, windowInnerWidth);
      canvasWidth := containerWidth - ContainerPadding;
      canvas := new CanvasVideoCrop(CanvasOptions(canvasWidth, TimelineHeight, store.playerRef, store,
                                                  Some(initialDurationMs), Some(store.fps)));
      timelineWidth := canvasWidth;
      strip, crop, mask := null, null, null;
    }

    /** `updateMask`: copy the crop rectangle's geometry into the mask. */
    method UpdateMask()
      requires crop != null && mask != null
      modifies mask`cropLeft, mask`cropTop, mask`cropWidth, mask`cropHeight, mask`dirty
      ensures MaskSynced() && mask.dirty
    {
      mask.UpdateCropArea(OrDefault(Some(crop.left), 0.0), OrDefault(Some(crop.top), 0.0),
                          OrDefault(Some(crop.width), 0.0), OrDefault(Some(crop.height), 0.0));
    }

    /** The continuation of `createWithThumbnails`: with the strip's
        thumbnails generated, the crop rectangle is created, synced to the
        strip, and given a mask whose crop area is its geometry. A failed
        generation rejects and nothing is added. */
    method ThumbnailsReady(probe: TrackProbe, frames: DecodedFrames) returns (created: bool)
      requires Valid() && canvas != null && strip == null && HasVideo(videoFile)
      requires probe.Track? ==> probe.displayWidth > 0.0 && probe.displayHeight > 0.0
      requires probe.Track? ==> |frames| == 16
      requires OrDefault(maxDurationMs, 0.0) != 0.0 ==> initialDurationMs != 0.0
      modifies this`strip, this`crop, this`mask
      ensures Valid() && MaskSynced()
      ensures created == probe.Track?
      ensures !created ==> strip == null && crop == old(crop) && mask == old(mask)
      ensures created ==>
        && strip != null && fresh(strip)
        && strip.Bounds() == Box(0.0, 0.0, OrDefault(Some(canvasWidth), 200.0), TimelineHeight)
        && strip.thumbnails == Present(frames)
        && strip.thumbnailCount == 16 && strip.thumbnailSize == 120.0 && strip.videoFile == videoFile
        && crop != null && fresh(crop) && crop.canvas == canvas
        && crop.maxDurationMs == OrDefault(maxDurationMs, 0.0) && crop.initialDurationMs == initialDurationMs
        && crop.Geometry() == Synced(CropGeometry(100.0, 0.0, 200.0, TimelineHeight, 200.0, 0.0), strip.Bounds(),
                                     OrDefault(maxDurationMs, 0.0), initialDurationMs)
        && mask != null && fresh(mask) && mask.Bounds() == Box(0.0, 0.0, canvasWidth, TimelineHeight)
        && mask.dirty
    {
      var s := new VideoThumbnailRect(ThumbnailOptions(Some(0.0), Some(0.0), Some(canvasWidth), Some(TimelineHeight),
                                                       videoFile, Some(16), Some(120.0)));
      var outcome := s.GenerateThumbnails(probe, frames);
      if outcome.Failed? {
        return false;
      }
      created := true;
      var c, m := CreateCropWindow(s.Bounds());
      c.canvas := canvas;
      strip, crop, mask := s, c, m;
    }

    /** The body of the continuation once the strip exists: the crop
        rectangle synced to the strip's box, then the mask over the whole
        canvas with the crop rectangle's geometry as its crop area. */
    method CreateCropWindow(stripBox: Box) returns (c: VideoCropRect, m: VideoCropMask)
      requires OrDefault(maxDurationMs, 0.0) != 0.0 ==> initialDurationMs != 0.0
      ensures fresh(c) && fresh(m) && c.canvas == null
      ensures c.maxDurationMs == OrDefault(maxDurationMs, 0.0) && c.initialDurationMs == initialDurationMs
      ensures c.Geometry() == Synced(CropGeometry(100.0, 0.0, 200.0, TimelineHeight, 200.0, 0.0), stripBox,
                                     OrDefault(maxDurationMs, 0.0), initialDurationMs)
      ensures m.Bounds() == Box(0.0, 0.0, canvasWidth, TimelineHeight) && m.CropArea() == c.Bounds() && m.dirty
    {
      c := new VideoCropRect(CropRectOptions(Some(100.0), Some(0.0), Some(200.0), Some(TimelineHeight),
                                             Some(OrDefault(maxDurationMs, 0.0)),
                                             Some(OrDefault(Some(initialDurationMs), 0.0))));
      c.SyncWithVideoThumbnailRect(stripBox);
      m := new VideoCropMask();
      m.SetBounds(Box(0.0, 0.0, canvasWidth, TimelineHeight));
      m.UpdateCropArea(OrDefault(Some(c.left), 0.0), OrDefault(Some(c.top), 0.0),
                       OrDefault(Some(c.width), 0.0), OrDefault(Some(c.height), 0.0));
    }

    /** A drag: fabric proposes a left edge and fires "moving", whose
        listeners clamp it, report the crop time and update the mask, in
        that order. */
    method Moving(proposedLeft: real)
      requires Valid() && crop != null && crop.initialWidth != 0.0
      modifies crop`left, store, mask`cropLeft, mask`cropTop, mask`cropWidth, mask`cropHeight, mask`dirty
      ensures crop.left == MoveClamp(proposedLeft, crop.width, crop.initialWidth)
      ensures store.State() == old(store.State()).(cropTimeMs := PxToMs(crop.left, crop.initialWidth, canvas.totalDurationMs))
      ensures Valid() && MaskSynced()
    {
      crop.left := proposedLeft;
      crop.OnMovingClamp();
      crop.OnMovingCropTime();
      UpdateMask();
    }

    /** A resize step on a side handle: `changeWidth` runs, and the
        "resizing" event, whose listener updates the mask, fires only when
        the handler reports a change. */
    method ResizeGesture(t: Transform, localX: real, newWidth: real) returns (performed: bool)
      requires Valid() && crop != null && crop.initialWidth != 0.0
      modifies crop`left, crop`width, canvas.playerRef, store,
        mask`cropLeft, mask`cropTop, mask`cropWidth, mask`cropHeight, mask`dirty
      ensures
        var e := ResizeStep(old(crop.Geometry()), t, localX, newWidth, canvas.totalDurationMs);
        && crop.Geometry() == AnchoredStep(old(crop.Geometry()), t, localX, newWidth, canvas.totalDurationMs)
        && performed == e.changed
        && (canvas.playerRef != null ==>
              canvas.playerRef.seekLog == old(canvas.playerRef.seekLog) + (if e.seeksToStart then [0.0] else []))
        && store.State() == (if e.cropTimeMs.Some? then old(store.State()).(cropTimeMs := e.cropTimeMs.value)
                             else old(store.State()))
      ensures performed ==> MaskSynced()
      ensures !performed ==> mask.CropArea() == old(mask.CropArea())
      ensures Valid()
    {
      performed := ChangeWidth.ChangeWidth(crop, t, localX, newWidth);
      if performed {
        UpdateMask();
      }
    }

    /** The end of a transform: fabric fires "modified", whose listeners
        commit the duration (crop rectangle first) and update the mask. */
    method Modified(action: TransformAction)
      requires Valid() && crop != null
      requires action != Drag ==> crop.initialWidth != 0.0
      modifies crop`left, canvas`durationMs, store,
        mask`cropLeft, mask`cropTop, mask`cropWidth, mask`cropHeight, mask`dirty
      ensures crop.left == Max(old(crop.left), 0.0)
      ensures action != Drag ==>
        && canvas.durationMs == PxToMs(crop.width, crop.initialWidth, canvas.totalDurationMs)
        && store.State() == old(store.State()).(durationMs := PxToMs(crop.width, crop.initialWidth, canvas.totalDurationMs))
      ensures action == Drag ==> canvas.durationMs == old(canvas.durationMs) && store.State() == old(store.State())
      ensures Valid() && MaskSynced()
    {
      crop.OnModified(action);
      UpdateMask();
    }

    /** `handleResize`: the new width is applied to the canvas, the timeline
        rectangle, the strip and the mask; the crop rectangle is re-synced to
        the strip and the mask's crop area re-copied from it. */
    method HandleResize(containerClientWidth: Option<real>, windowInnerWidth: real)
      requires Valid() && canvas != null
      modifies this`timelineWidth, canvas`width, canvas`height, StripObject()`width, StripObject()`dirty,
        CropObject()`left, CropObject()`top, CropObject()`width, CropObject()`height,
        CropObject()`initialWidth, CropObject()`maxWidth, MaskObject()`width, MaskObject()`height,
        MaskObject()`cropLeft, MaskObject()`cropTop, MaskObject()`cropWidth, MaskObject()`cropHeight,
        MaskObject()`dirty
      ensures Valid() && (crop != null ==> MaskSynced())
      ensures var w := OrDefault(containerClientWidth, windowInnerWidth) - ContainerPadding;
        && canvas.width == w && canvas.height == TimelineHeight && timelineWidth == w
        && (strip != null ==>
              && strip.Bounds() == old(strip.Bounds()).(width := w)
              && strip.thumbnails == old(strip.thumbnails)
              && strip.dirty == (old(strip.dirty) || |strip.thumbnails| > 0))
        && (crop != null ==>
              crop.Geometry() == Synced(old(crop.Geometry()), strip.Bounds(),
                                        old(crop.maxDurationMs), old(crop.initialDurationMs)))
        && (mask != null ==>
              && mask.Bounds() == old(mask.Bounds()).(width := w, height := TimelineHeight)
              && mask.dirty == (old(mask.dirty) || crop != null)
              && (crop == null ==> mask.CropArea() == old(mask.CropArea())))
    {
      var newCanvasWidth := OrDefault(containerClientWidth, windowInnerWidth) - ContainerPadding;
      canvas.SetSize(newCanvasWidth, TimelineHeight);
      timelineWidth := newCanvasWidth;
      if strip != null {
        strip.SetWidth(newCanvasWidth);
        strip.UpdateThumbnailLayout();
      }
      if crop != null {
        crop.SyncWithVideoThumbnailRect(strip.Bounds());
      }
      if mask != null {
        mask.SetSize(newCanvasWidth, TimelineHeight);
        if crop != null {
          UpdateMask();
        }
      }
    }
  }

  /** A resize that hits the width cap changes the crop rectangle but
      reports no change, so no "resizing" event fires and the mask keeps its
      previous crop area until the next "resizing" or "modified" event, if
      one fires. */
  lemma CappedResizeUnreported()
    ensures var g := CropGeometry(100.0, 0.0, 150.0, TimelineHeight, 500.0, 200.0);
      var e := ResizeStep(g, Transform(MR, Left, Center), 300.0, 300.0, 10000.0);
      e.width == 200.0 && e.width != g.width && !e.changed
  {
  }
}
