# Crop-window engine of the video-crop timeline

A Dafny model of the crop-window engine in the fabric.js timeline of
Pablituuu/video-crop. The timeline shows a strip of video thumbnails. A
crop rectangle sits on the strip and can be dragged, or resized from its
left (`ml`) or right (`mr`) handle. A mask darkens everything outside the
crop window. The selected window is reported to a small player store as a
crop start time and a duration, in milliseconds.

All pixel and millisecond quantities are `real`, and `Math.floor` is
`.Floor`. There is one module per source file, plus `Geometry` for
shared values:

- `geometry.dfy` (`Geometry`): shared values. `Box`, JavaScript `x || d`
  on numbers (`OrDefault`), and the pixel-to-milliseconds mapping `PxToMs`
  that every handler uses.
- `store.dfy` (`Store`): the zustand store of `src/store/use-store.ts`, as
  a class with a view `State()`. `Player` stands for the Remotion player
  and records every `seekTo` call.
- `canvas_video_crop.dfy` (`CanvasCrop`): the extended canvas, holding the
  durations, the fps, the player and the two store callbacks.
- `fabric_controls.dfy` (`FabricControls`): `isTransformCentered` and the
  fixed-anchor wrapper over resolved origins.
- `video_crop_rect.dfy` (`CropRect`):
  - the crop rectangle's listeners;
  - the resync to the strip;
  - the percentage getters and setters;
  - the canvas constraint.

  Each mutating method is specified by a pure function on a `CropGeometry`
  value.
- `change_width.dfy` (`ChangeWidth`): `changeObjectWidth`, specified by
  `ResizeStep`, a pure function that returns a `ResizeEffect`. Also
  `changeWidth`, the same handler behind the fixed anchor.
- `video_crop_mask.dfy` (`CropMask`): the mask object and the strips its
  `_render` paints, with coverage, disjointness, order and translation
  lemmas.
- `video_thumbnail_rect.dfy` (`Thumbnails`):
  - the thumbnail strip's layout and drawn tiles;
  - the timestamps and size it requests;
  - how decoded frames become thumbnails.
- `timeline_canvas.dfy` (`Timeline`):
  - the playhead arithmetic;
  - the setup effect and its continuation;
  - the moving, resizing and modified events;
  - `handleResize`.

  Together they keep the mask's crop area equal to the crop rectangle,
  except after a resize step that reports no change (see below).

Behaviour of the code a reader might not expect:

- `syncWithVideoThumbnailRect` sets the full strip box: left, top, width
  and height. With a maximum duration, the width becomes the strip width
  scaled by `maxDurationMs / initialDurationMs`. The crop's previous
  position and width are discarded (`CropRect.Synced`).
- With the left handle, the `left := 0` that `changeObjectWidth` writes is
  overwritten by the fixed-anchor wrapper. The anchor puts the left edge at
  the old right edge minus the new width (`ChangeWidth.LeftHandleLeftEdge`).
- As a concrete case (`ChangeWidth.LeftHandleOvershoot`): left 50, width
  100, request 500 past the strip start on a 500-pixel strip. The code
  leaves the crop at left −350 and width 500.
  The negative left edge stays until a later resize step in the same
  gesture re-anchors it, or the next "modified" event, if one fires,
  resets it to 0.
- The right handle is capped in width but not in position, so its right
  edge can pass the strip end (`ChangeWidth.RightHandleOvershoot`).
- `changeObjectWidth` returns `false` from its clamp and cap branches,
  even when they changed the width. fabric's `wrapWithFireEvent` then
  fires no "resizing" event, so the mask keeps its old crop area until the
  next "resizing" or "modified" event, if one fires (`Timeline.CappedResizeUnreported`,
  `Timeline.TimelineCanvas.ResizeGesture`).
- The `setCropTimeMs(0)` calls at change-width.ts:59-61 and 66-68 can
  never run: each is guarded by `left !== 0` right after `left := 0`.

## Model

| member | source | states |
|---|---|---|
| Geometry.OrDefault | src/components/video-crop-rect.ts:26-36 | `x \|\| d` on a number: a present non-zero value is kept, and an absent or zero value gives the default |
| Geometry.PxToMs | src/components/video-crop-rect.ts:52-54 | offset 0 maps to 0 ms, the full strip width to the total duration, and an offset on the strip to a time within [0, total] |
| Geometry.PxToMsMonotone | src/components/video-crop-rect.ts:52-54 | a larger pixel offset never gives an earlier time |
| Store.Player.SeekTo | src/components/controls/change-width.ts:50-52 | each seek request is recorded, in order |
| Store.InitialState | src/store/use-store.ts:30-51 | the store starts with no player, duration 0, 30 fps, no video loaded and crop time 0 |
| Store.PlayerStore.constructor | src/store/use-store.ts:30-51 | a new store is in the initial state |
| Store.PlayerStore.SetPlayerRef | src/store/use-store.ts:32-34 | only `playerRef` changes, to the argument |
| Store.PlayerStore.SetDurationMs | src/store/use-store.ts:36-38 | only `durationMs` changes, to the argument |
| Store.PlayerStore.SetFps | src/store/use-store.ts:40-42 | only `fps` changes, to the argument |
| Store.PlayerStore.SetLoadVideo | src/store/use-store.ts:44-46 | only `loadVideo` changes, to the argument |
| Store.PlayerStore.SetCropTimeMs | src/store/use-store.ts:48-50 | only `cropTimeMs` changes, to the argument |
| CanvasCrop.CanvasVideoCrop.constructor | src/components/canvas-video-crop.ts:26-42 | `durationMs` and `totalDurationMs` both start at the given duration (default 0); fps defaults to 30 when absent or 0; the player and the callbacks are the given ones, or none |
| CanvasCrop.CanvasVideoCrop.SetCropTimeMs | src/components/canvas-video-crop.ts:38 | the bound store's crop time becomes the argument; with no store nothing changes |
| CanvasCrop.CanvasVideoCrop.SetDurationMs | src/components/canvas-video-crop.ts:37 | the bound store's duration becomes the argument; with no store nothing changes |
| CanvasCrop.CanvasVideoCrop.SetSize | src/components/timeline-canvas.tsx:161-162 | the canvas takes the new width and height |
| FabricControls.OriginFactor | src/components/controls/fabric.ts:26-28 | an origin sits at a fraction in [0, 1] of the width: 0 only at the left edge and 1 only at the right edge |
| FabricControls.AnchoredLeft | src/components/controls/fabric.ts:22-39 | the restored left edge keeps the captured origin point fixed: a left origin keeps the left edge, a right origin keeps the right edge |
| FabricControls.AnchorUnique | src/components/controls/fabric.ts:32-36 | the anchored left edge is the only one that keeps the origin point, so the inner handler's `left` is superseded |
| CropRect.MoveClamp | src/components/video-crop-rect.ts:37-48 | a crop no wider than the strip ends inside it, and is unchanged when it was already inside; a full-width crop goes to 0; a wider crop goes to `fullWidth − width` |
| CropRect.MoveClampIdempotent | src/components/video-crop-rect.ts:37-48 | clamping a clamped left edge changes nothing |
| CropRect.MoveCropTimeInRange | src/components/video-crop-rect.ts:49-55 | the crop time reported after a drag lies within [0, total duration] |
| CropRect.ClampPct | src/components/video-crop-rect.ts:98 | the clamped percentage lies in [0, 100] and equals the input when the input is in range |
| CropRect.PctToPx | src/components/video-crop-rect.ts:112-116 | a percentage maps to a pixel offset within [0, canvas width] |
| CropRect.ConstrainLeft | src/components/video-crop-rect.ts:136-154 | the constrained left edge is non-negative, keeps a fitting crop inside the canvas, and leaves an inside crop unchanged |
| CropRect.ConstrainLeftIdempotent | src/components/video-crop-rect.ts:136-154 | constraining twice is the same as constraining once |
| CropRect.Synced | src/components/video-crop-rect.ts:74-91 | after a resync the crop takes the strip's position and height and its width as `initialWidth`; without a maximum duration it spans the strip, and with one its width equals `maxWidth` |
| CropRect.SyncedSelectsMaxDuration | src/components/video-crop-rect.ts:83-90 | with a maximum duration, the resynced width maps to exactly `maxDurationMs` on the strip's time scale |
| CropRect.SyncedIdempotent | src/components/video-crop-rect.ts:74-91 | resyncing to the same strip twice is the same as once |
| CropRect.VideoCropRect.constructor | src/components/video-crop-rect.ts:24-36 | the defaults are left 0, top 0, width 200, height 100; `initialWidth` is the given width or 200; the durations default to 0 |
| CropRect.VideoCropRect.OnMovingClamp | src/components/video-crop-rect.ts:37-48 | the three successive corrections give exactly `MoveClamp` of the dragged left edge |
| CropRect.VideoCropRect.OnMovingCropTime | src/components/video-crop-rect.ts:49-55 | the store's crop time becomes the time of the clamped left edge, and nothing else changes |
| CropRect.VideoCropRect.OnModified | src/components/video-crop-rect.ts:56-67 | a negative left edge is reset to 0; a non-drag transform writes the duration of the crop width to both the store and the canvas; a drag writes neither |
| CropRect.VideoCropRect.SyncWithVideoThumbnailRect | src/components/video-crop-rect.ts:74-91 | the new geometry is `Synced` of the old one and the strip box |
| CropRect.VideoCropRect.GetHorizontalPercentage | src/components/video-crop-rect.ts:96-99 | the result lies in [0, 100] and is the exact percentage when that is in range |
| CropRect.VideoCropRect.GetWidthPercentage | src/components/video-crop-rect.ts:104-107 | the result lies in [0, 100] and is the exact percentage when that is in range |
| CropRect.VideoCropRect.SetHorizontalPercentage | src/components/video-crop-rect.ts:112-116 | the left edge becomes the pixel offset of the clamped percentage |
| CropRect.VideoCropRect.SetWidthPercentage | src/components/video-crop-rect.ts:121-131 | the width becomes the pixel offset of the clamped percentage |
| CropRect.VideoCropRect.ConstrainToCanvas | src/components/video-crop-rect.ts:136-154 | the left edge becomes `ConstrainLeft` of the old one |
| CropRect.PercentRoundTrip | src/components/video-crop-rect.ts:96-116 | reading the position back after setting it by percentage gives the clamped percentage |
| CropRect.WidthPercentRoundTrip | src/components/video-crop-rect.ts:104-124 | reading the width back after setting it by percentage gives the clamped percentage |
| FabricControls.IsTransformCentered | src/components/controls/fabric.ts:9-14 | a transform is centred exactly when both its origins sit at the middle of the object |
| ChangeWidth.SidePasses | src/components/controls/change-width.ts:33-39 | a centred origin always passes; a side origin passes exactly when the pointer is on the far side of the centre from it |
| ChangeWidth.CenteredPassesGuard | src/components/controls/change-width.ts:33-39 | a centred origin passes the side guard whatever the pointer |
| ChangeWidth.CapWidth | src/components/controls/change-width.ts:49 | the cap is `maxWidth`, or `initialWidth` when `maxWidth` is 0 |
| ChangeWidth.NextLeft | src/components/controls/change-width.ts:53-54 | the right handle keeps the left edge; the left handle keeps the right edge |
| ChangeWidth.ResizeStep | src/components/controls/change-width.ts:33-89 | wrong side: no effect. The left handle always seeks to the start. Past the strip start: left 0, width restored or capped. Over the cap: width exactly the cap; the right handle keeps its left edge, the left handle's left edge moves right by the width gained. Otherwise: width `max(w, 1)` and the crop time of the new left edge. The result says whether the width changed. The width stays in [1, cap] |
| ChangeWidth.ChangeObjectWidth | src/components/controls/change-width.ts:19-90 | the handler's writes, seek requests, store update and return value are exactly those of `ResizeStep` |
| ChangeWidth.AnchoredStep | src/components/controls/change-width.ts:92-95 | the anchored resize keeps the inner handler's width, puts the origin point back where it was, and leaves top, height and the caps alone |
| ChangeWidth.ChangeWidth | src/components/controls/change-width.ts:92-95 | the anchored handler gives `AnchoredStep` geometry with the inner handler's seeks, store update and return value |
| ChangeWidth.AnchoredKeepsOriginEdge | src/components/controls/change-width.ts:92-95 | with the anchor, the right handle keeps the left edge and the left handle keeps the right edge; top, height and the caps are untouched |
| ChangeWidth.AnchoredWidthBounds | src/components/controls/change-width.ts:71-84 | an anchored resize keeps a width in [1, cap] within it |
| ChangeWidth.LeftHandleLeftEdge | src/components/controls/change-width.ts:56-70 | with the left handle the new left edge is the old right edge minus the new width; it is non-negative except when the request passes both the strip start and the cap |
| ChangeWidth.LeftHandleOvershoot | src/components/controls/change-width.ts:63-69 | left 50, width 100, request 500 on a 500-pixel strip ends at left −350, width 500 |
| ChangeWidth.RightHandleOvershoot | src/components/controls/change-width.ts:71-75 | left 300, width 100, request 400 on a 500-pixel strip ends past the strip end |
| ChangeWidth.LeftHandleExample | src/components/controls/change-width.ts:84-87 | left 100, width 200, left-handle request 150 gives left 150, width 150 |
| ChangeWidth.RightHandleExample | src/components/controls/change-width.ts:84-87 | left 100, width 200, right-handle request 250 gives left 100, width 250 |
| ChangeWidth.RightHandleCapExample | src/components/controls/change-width.ts:71-75 | with a 200-pixel cap, a right-handle request of 300 gives width 200 |
| CropMask.Candidate | src/components/video-crop-mask.ts:66-84 | each candidate strip is tagged with its own side |
| CropMask.GuardMeansPositive | src/components/video-crop-mask.ts:66-84 | each strip's guard holds exactly when its guarded dimension is positive; top and bottom span the mask width, left and right the crop's band |
| CropMask.StripsOf | src/components/video-crop-mask.ts:66-84 | at most four strips are painted |
| CropMask.StripsOfMembers | src/components/video-crop-mask.ts:66-84 | a strip is painted exactly when its side's guard holds, and it is that side's candidate |
| CropMask.OrderedAppend | src/components/video-crop-mask.ts:66-84 | joining ordered strip lists whose sides come in order gives an ordered list |
| CropMask.StripsOfOrdered | src/components/video-crop-mask.ts:66-84 | strips are painted in the order top, bottom, left, right |
| CropMask.LocalCrop | src/components/video-crop-mask.ts:46-60 | the crop area in the drawing frame has the same size and the same offset from the mask's corner as on the canvas |
| CropMask.LocalFrameRoundTrip | src/components/video-crop-mask.ts:46-60 | mapped back to the canvas, the drawing frame's mask and crop are the mask's bounds and its crop area |
| CropMask.MaskStrips | src/components/video-crop-mask.ts:46-84 | at most four strips are painted, and none when the crop area equals the mask |
| CropMask.StripsCoverMask | src/components/video-crop-mask.ts:45-88 | with the crop inside the mask, a point is in the mask exactly when it is in the crop or in a painted strip |
| CropMask.StripsDisjoint | src/components/video-crop-mask.ts:66-84 | no point lies in two painted strips, or in a strip and the crop |
| CropMask.TranslationInvariant | src/components/video-crop-mask.ts:55-60 | moving the mask and the crop area by the same amount paints the same strips |
| CropMask.TwoStripExample | src/components/video-crop-mask.ts:45-84 | mask (0,0,400,80) with crop (100,0,150,80) paints exactly (0,0,100,80) and (250,0,150,80) on the canvas |
| CropMask.VideoCropMask.constructor | src/components/video-crop-mask.ts:13-26 | the mask and its crop area start at zero |
| CropMask.VideoCropMask.SetBounds | src/components/timeline-canvas.tsx:113-118 | the mask takes the given box |
| CropMask.VideoCropMask.SetSize | src/components/timeline-canvas.tsx:192-195 | the mask takes the given width and height |
| CropMask.VideoCropMask.UpdateCropArea | src/components/video-crop-mask.ts:31-40 | the crop area becomes the four values and a repaint is requested; the mask's own box is unchanged |
| Thumbnails.Layout | src/components/video-thumbnail-rect.ts:283-300 | no thumbnails: all zeros. Otherwise one row of `min(count, floor(width/20))` columns at the full height, with `cols * thumbWidth = width`. A strip at least 20 wide gets at least one column, and every tile is at least 20 wide |
| Thumbnails.TilesFillStrip | src/components/video-thumbnail-rect.ts:317-344 | tiles start at the strip's left edge, are contiguous, end at its right edge and span its height |
| Thumbnails.Present | src/components/video-thumbnail-rect.ts:149-162 | never more thumbnails than decoded frames |
| Thumbnails.PresentAppend | src/components/video-thumbnail-rect.ts:149-162 | the kept thumbnails of two runs of frames are those of the first followed by those of the second |
| Thumbnails.FailedFrameIsGap | src/components/video-thumbnail-rect.ts:153-161 | a failed frame is skipped and the frames after it are still kept |
| Thumbnails.PresentMembers | src/components/video-thumbnail-rect.ts:153-161 | a thumbnail is kept exactly when it was decoded |
| Thumbnails.PresentAllDecoded | src/components/video-thumbnail-rect.ts:153-161 | when no frame fails, every frame is kept at its own position |
| Thumbnails.Timestamps | src/components/video-thumbnail-rect.ts:136-139 | `thumbnailCount` timestamps are requested |
| Thumbnails.TimestampsStartAndSpacing | src/components/video-thumbnail-rect.ts:136-139 | the first timestamp is the first frame time, and neighbours are `(last − first) / count` apart |
| Thumbnails.TimestampsIncreasing | src/components/video-thumbnail-rect.ts:136-139 | when `last > first` the timestamps strictly increase and stay within [first, last) |
| Thumbnails.ThumbSizeOf | src/components/video-thumbnail-rect.ts:126-131 | the larger display dimension gets the thumbnail size and the other the floor of its share; for a non-negative size neither exceeds it |
| Thumbnails.VideoThumbnailRect.constructor | src/components/video-thumbnail-rect.ts:27-53 | the defaults are left 0, top 0, width 200, height 100, 16 thumbnails of size 200; an empty URL counts as no video; no thumbnails yet |
| Thumbnails.VideoThumbnailRect.GetThumbnailLayout | src/components/video-thumbnail-rect.ts:283-300 | no thumbnails: no rows or columns. Otherwise one row at the strip's height, never more columns than thumbnails, columns adding up to the strip width, each at least 20 wide on a strip at least 20 wide |
| Thumbnails.VideoThumbnailRect.GetVisibleThumbnailsInfo | src/components/video-thumbnail-rect.ts:262-278 | reports the thumbnail count, at most that many visible columns, and column widths that add up to the strip width |
| Thumbnails.VideoThumbnailRect.RenderTiles | src/components/video-thumbnail-rect.ts:305-349 | no thumbnails: no tiles. Otherwise one tile per column, the `i`-th showing thumbnail `i` in row 0 at `x = −width/2 + i·thumbWidth` |
| Thumbnails.VideoThumbnailRect.CollectFrames | src/components/video-thumbnail-rect.ts:149-165 | the thumbnails become exactly the decoded frames, in order, and a repaint is requested |
| Thumbnails.VideoThumbnailRect.GenerateThumbnails | src/components/video-thumbnail-rect.ts:73-174 | no video or existing thumbnails: nothing happens. A failed probe: the thumbnails are untouched. Otherwise the evenly spaced timestamps and the size are requested, and the decoded frames become the thumbnails, at most `thumbnailCount` of them |
| Thumbnails.VideoThumbnailRect.ClearThumbnails | src/components/video-thumbnail-rect.ts:240-242 | the thumbnails are emptied |
| Thumbnails.VideoThumbnailRect.UpdateThumbnailLayout | src/components/video-thumbnail-rect.ts:248-260 | a repaint is requested exactly when there are thumbnails |
| Thumbnails.VideoThumbnailRect.SetVideoFile | src/components/video-thumbnail-rect.ts:212-214 | the video source becomes the argument |
| Thumbnails.VideoThumbnailRect.SetThumbnailCount | src/components/video-thumbnail-rect.ts:226-228 | the count becomes the argument |
| Thumbnails.VideoThumbnailRect.SetThumbnailSize | src/components/video-thumbnail-rect.ts:233-235 | the size becomes the argument |
| Thumbnails.VideoThumbnailRect.SetWidth | src/components/timeline-canvas.tsx:173 | the strip takes the new width |
| Timeline.TotalFrames | src/components/timeline-canvas.tsx:218-219 | with a positive duration, the number of whole frames in it (`n·1000 ≤ duration·fps < (n+1)·1000`); otherwise 1 |
| Timeline.PlayheadPosition | src/components/timeline-canvas.tsx:220-224 | 0 without frames and at frame 0; the last frame sits at the container width; frames on the timeline stay within it |
| Timeline.PlayheadMonotone | src/components/timeline-canvas.tsx:220-224 | the playhead never moves left as the frame advances |
| Timeline.PlayheadPositionCrop | src/components/timeline-canvas.tsx:225-228 | the crop offset is the playhead position of the crop time's frame, and 0 at crop time 0 |
| Timeline.CursorX | src/components/timeline-canvas.tsx:218-243 | the cursor is the playhead of the player's frame counted from the crop start, plus 2 |
| Timeline.CropOffsetTracksLeftEdge | src/components/timeline-canvas.tsx:225-228 | when the duration is a whole number of frames, the crop offset after a drag is the crop's left edge rescaled to the container width |
| Timeline.TimelineCanvas.constructor | src/components/timeline-canvas.tsx:15-31 | nothing is mounted yet |
| Timeline.TimelineCanvas.Mount | src/components/timeline-canvas.tsx:33-74 | without a canvas element, a player or a loaded video nothing changes. Otherwise `maxDurationMs` goes to the store, and the canvas is built `container − 16` wide and 80 high, from the duration read before that update |
| Timeline.TimelineCanvas.UpdateMask | src/components/timeline-canvas.tsx:129-136 | the mask's crop area becomes the crop rectangle's geometry |
| Timeline.TimelineCanvas.ThumbnailsReady | src/components/timeline-canvas.tsx:77-151 | a failed generation adds nothing. Otherwise the strip holds the decoded thumbnails with count 16, size 120 and the component's video file; the crop rectangle is created with `maxDurationMs \|\| 0` and the captured initial duration and synced to the strip; the mask covers the canvas with the crop's geometry and is marked for repaint |
| Timeline.TimelineCanvas.CreateCropWindow | src/components/timeline-canvas.tsx:96-124 | the crop rectangle starts with `maxDurationMs \|\| 0` and the captured initial duration, synced to the strip; the mask spans the canvas with the crop's geometry as its crop area and is marked for repaint |
| Timeline.TimelineCanvas.Moving | src/components/timeline-canvas.tsx:138-140 | after a drag the left edge is the clamped proposal, the store's crop time is that edge's time, and the mask matches the crop |
| Timeline.TimelineCanvas.ResizeGesture | src/components/timeline-canvas.tsx:141-143 | the crop gets the anchored resize geometry and store update; the left handle appends one seek to 0 to the player's log; the mask is updated exactly when the handler reports a change |
| Timeline.TimelineCanvas.Modified | src/components/timeline-canvas.tsx:145-147 | the crop's "modified" effects happen first, then the mask matches the crop |
| Timeline.TimelineCanvas.HandleResize | src/components/timeline-canvas.tsx:155-207 | the new width reaches the canvas, the timeline, the strip and the mask; the crop is resynced to the strip with its own durations and the mask's crop area re-copied from it; only those fields and the repaint flags change |
| Timeline.CappedResizeUnreported | src/components/controls/change-width.ts:71-75 | a capped right-handle resize changes the width but reports no change |

## Left out

- **Thumbnail decoding.** The mediabunny input, the track probe (`getPrimaryVideoTrack`, `canDecode`) and frame extraction are inputs.
  - `TrackProbe` gives the probe's answer.
  - `DecodedFrames` gives the frames, with `None` for a frame that failed.
  - The `devicePixelRatio` scaling of the requested size is not modelled.
- **In-flight generation.** The deduplication through `isGenerating` and `generationPromise` is not modelled. The model has no concurrency.
- **The asynchronous continuation.** `ThumbnailsReady` runs as one step after `Mount`. Other events arriving while generation is pending are not interleaved.
- **Drawing.** The canvas 2D calls (fills, strokes, labels, clipping) and `controls/draw.ts` are left out; only the rectangles drawn are kept. The colours `_render` uses are left out too.
- **Coordinate conversion.** The `getLocalPoint` conversion, stroke padding, `scaleX` and the centred multiplier (change-width.ts:25-46) are inputs: the handlers take `localX` and `newWidth`.
- **Origins.** `resolveOrigin` is not part of this model; origins are taken already resolved to left, centre or right.
- **Positioning.** fabric's `translateToOriginPoint` and `setPositionByOrigin` are reduced to the unrotated, unscaled horizontal case (`FabricControls.AnchoredLeft`).
- **`controls.ts`.** It only provides the two handles, `ml` and `mr`.
- **Event dispatch.** fabric's event dispatch is not modelled. Each listener sequence is a method, and fabric's "fire only when the handler returned true" rule appears only in `Timeline.TimelineCanvas.ResizeGesture`. fabric's `actionPerformed` bookkeeping across a gesture, which decides whether "modified" fires at all, is not modelled: `Timeline.TimelineCanvas.Modified` is a step the caller may or may not take.
- **Decoder results.** `DecodedFrames` holds one entry per requested timestamp; `GenerateThumbnails` and `ThumbnailsReady` require that length, which the decoder's `canvasesAtTimestamps` guarantees.
- **Floating point.** NaN, Infinity and rounding are not modelled. The divisions by zero the code can make become preconditions:
  - `initialWidth ≠ 0` for the drag, modify and resize handlers;
  - a non-zero canvas width for the percentage getters;
  - `initialDurationMs ≠ 0` when a maximum duration is set, for the resync;
  - at least one column for the layout;
  - positive display dimensions for the thumbnail size;
  - a non-zero frame total for the crop playhead.
- **React and the player.** The React wiring and the window listener registration and `dispose` are left out. The player subscription behind `currentFrame` is left out as well; `currentFrame` and the container widths are parameters.
- **`totalDurationMs` in the timeline.** The component reads `totalDurationMs` from a store that has no such field. The playhead functions take it as a parameter.
- **Thumbnail getters.** `getThumbnails`, `getThumbnailsAsBase64`, `getThumbnailsWithInfo` and `getVideoFile` return stored data or encode images, so they are left out.
- **Canvas callbacks.** `setDurationMs` and `setCropTimeMs` are optional independently in the canvas options (canvas-video-crop.ts:37-38). The model binds both to one optional store, so one present and the other absent cannot be expressed.
- **Logging.** The `console.log`, `console.warn` and `console.error` calls in the handlers and in generation are left out; they change no state.
- **Thumbnail count.** `thumbnailCount` is a `nat`: a negative or fractional count passed in the options is not modelled.
- CropMask.ToCanvas: the stroke and padding offsets fabric adds when it places the drawing frame are ignored.
