/** The player store of src/store/use-store.ts and the player handle it
    holds. */
module Store {

  /** The playback handle the timeline drives. Only `seekTo` is used by the
      crop-window engine; the model keeps the log of the positions it was
      asked to seek to, in call order. */
  class Player {
    var seekLog: seq<real>

    constructor()
      ensures seekLog == []
    {
      seekLog := [];
    }

    method SeekTo(ms: real)
      modifies this
      ensures seekLog == old(seekLog) + [ms]
    {
      seekLog := seekLog + [ms];
    }
  }

  /** The five value fields of the store. There is no `totalDurationMs`. */
  datatype StoreState = StoreState(
    playerRef: Player?,
    durationMs: real,
    fps: real,
    loadVideo: bool,
    cropTimeMs: real)

  /** The state the store is created with. */
  function InitialState(): (s: StoreState)
    ensures s.playerRef == null && s.durationMs == 0.0 && s.fps == 30.0
    ensures !s.loadVideo && s.cropTimeMs == 0.0
  {
    StoreState(null, 0.0, 30.0, false, 0.0)
  }

  class PlayerStore {
    var playerRef: Player?
    var durationMs: real
    var fps: real
    var loadVideo: bool
    var cropTimeMs: real

    function State(): StoreState
      reads this
    {
      StoreState(playerRef, durationMs, fps, loadVideo, cropTimeMs)
    }

    constructor()
      ensures State() == InitialState()
    {
      playerRef := null;
      durationMs := 0.0;
      fps := 30.0;
      loadVideo := false;
      cropTimeMs := 0.0;
    }

    method SetPlayerRef(p: Player?)
      modifies this
      ensures State() == old(State()).(playerRef := p)
    {
      playerRef := p;
    }

    method SetDurationMs(d: real)
      modifies this
      ensures State() == old(State()).(durationMs := d)
    {
      durationMs := d;
    }

    method SetFps(f: real)
      modifies this
      ensures State() == old(State()).(fps := f)
    {
      fps := f;
    }

    method SetLoadVideo(b: bool)
      modifies this
      ensures State() == old(State()).(loadVideo := b)
    {
      loadVideo := b;
    }

    method SetCropTimeMs(t: real)
      modifies this
      ensures State() == old(State()).(cropTimeMs := t)
    {
      cropTimeMs := t;
    }
  }
}
