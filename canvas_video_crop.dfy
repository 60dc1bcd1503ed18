/** The canvas context of src/components/canvas-video-crop.ts: the fabric
    canvas extended with the values and callbacks the crop handlers use. */
module CanvasCrop {
  import opened Geometry
  import opened Store

  /** The constructor options that matter to the crop-window engine.
      `callbacks` stands for the two setter callbacks `setDurationMs` and
      `setCropTimeMs`: the timeline passes both from one store, and null
      means that both were left out. */
  datatype CanvasOptions = CanvasOptions(
    width: real,
    height: real,
    playerRef: Player?,
    callbacks: PlayerStore?,
    durationMs: Option<real>,
    fps: Option<real>)

  class CanvasVideoCrop {
    var width: real
    var height: real
    var playerRef: Player?
    var store: PlayerStore?
    var durationMs: real
    var totalDurationMs: real
    var fps: real

    constructor(options: CanvasOptions)
      ensures width == options.width && height == options.height
      ensures playerRef == options.playerRef && store == options.callbacks
      ensures durationMs == OrDefault(options.durationMs, 0.0)
      ensures totalDurationMs == OrDefault(options.durationMs, 0.0)
      ensures fps == OrDefault(options.fps, 30.0)
    {
      width := options.width;
      height := options.height;
      playerRef := options.playerRef;
      store := options.callbacks;
      durationMs := OrDefault(options.durationMs, 0.0);
      totalDurationMs := OrDefault(options.durationMs, 0.0);
      fps := OrDefault(options.fps, 30.0);
    }

    /** The `setCropTimeMs` callback: the store's setter, or a no-op that
        changes nothing when no callback was given. */
    method SetCropTimeMs(t: real)
      modifies store
      ensures store != null ==> store.State() == old(store.State()).(cropTimeMs := t)
    {
      if store != null {
        store.SetCropTimeMs(t);
      }
    }

    /** The `setDurationMs` callback, likewise. */
    method SetDurationMs(d: real)
      modifies store
      ensures store != null ==> store.State() == old(store.State()).(durationMs := d)
    {
      if store != null {
        store.SetDurationMs(d);
      }
    }

    /** `canvas.setWidth` / `canvas.setHeight`. */
    method SetSize(w: real, h: real)
      modifies this`width, this`height
      ensures width == w && height == h
    {
      width := w;
      height := h;
    }
  }
}
