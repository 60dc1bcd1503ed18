/** The thumbnail strip of src/components/video-thumbnail-rect.ts: its tile
    layout, the frame request it makes of the decoder and how the decoded
    frames become its thumbnails. Decoding itself is an input. */
module Thumbnails {
  import opened Geometry

  /** An extracted thumbnail image. */
  datatype Frame = Frame(id: nat)

  /** The video source: a file or a URL. */
  datatype VideoFile = File(name: string) | Url(url: string)

  /** JavaScript truthiness of the video source: a file always counts, an
      empty URL does not. */
  predicate HasVideo(v: Option<VideoFile>)
  {
    v.Some? && (v.value.File? || v.value.url != "")
  }

  datatype ThumbnailLayout = ThumbnailLayout(rows: int, cols: int, thumbWidth: real, thumbHeight: real)

  /** The narrowest a tile may be. */
  const MinThumbnailWidth: real := 20.0

  function IntMin(a: int, b: int): int
  {
    if a <= b then a else b
  }

  /** The layout precondition: a non-empty strip shows at least one column
      (`thumbWidth` divides by the column count). */
  predicate LayoutDefined(count: nat, width: real)
  {
    count == 0 || (width / MinThumbnailWidth).Floor != 0
  }

  /** `getThumbnailLayout` for `count` thumbnails on a strip of this size:
      one row of as many columns as fit at the minimum width, sharing the
      width equally and using the full height. */
  function Layout(count: nat, width: real, height: real): (l: ThumbnailLayout)
    requires LayoutDefined(count, width)
    ensures count == 0 ==> l == ThumbnailLayout(0, 0, 0.0, 0.0)
    ensures count > 0 ==>
      && l.rows == 1 && l.thumbHeight == height
      && l.cols == IntMin(count, (width / MinThumbnailWidth).Floor)
      && (l.cols as real) * l.thumbWidth == width
    ensures count > 0 && width >= MinThumbnailWidth ==>
      1 <= l.cols <= count && l.thumbWidth >= MinThumbnailWidth
  {
    if count == 0 then ThumbnailLayout(0, 0, 0.0, 0.0)
    else
      var maxThumbnails := (width / MinThumbnailWidth).Floor;
      var cols := IntMin(count, maxThumbnails);
      var thumbWidth := width / (cols as real);
      assert width >= MinThumbnailWidth ==> 1 <= cols && thumbWidth >= MinThumbnailWidth by {
        if width >= MinThumbnailWidth {
          assert 1 <= maxThumbnails;
          assert 1 <= cols;
          assert (cols as real) <= width / MinThumbnailWidth;
          assert (cols as real) * MinThumbnailWidth <= width;
          assert (cols as real) * thumbWidth == width;
        }
      }
      ThumbnailLayout(1, cols, thumbWidth, height)
  }

  /** The tile `_render` draws for column `i`, in the strip's drawing frame
      (centred on the origin). */
  function TileBox(l: ThumbnailLayout, width: real, height: real, i: int): Box
  {
    Box(-width / 2.0 + (i as real) * l.thumbWidth, -height / 2.0, l.thumbWidth, l.thumbHeight)
  }

  /** Tiles are contiguous, start at the strip's left edge and the last one
      ends at its right edge: together they exactly fill the strip. */
  lemma {:induction false} TilesFillStrip(count: nat, width: real, height: real, i: int)
    requires LayoutDefined(count, width) && count > 0
    requires 0 <= i < Layout(count, width, height).cols
    ensures var l := Layout(count, width, height);
      && TileBox(l, width, height, 0).left == -width / 2.0
      && TileBox(l, width, height, i).Right() == TileBox(l, width, height, i + 1).left
      && TileBox(l, width, height, l.cols - 1).Right() == width / 2.0
      && TileBox(l, width, height, i).top == -height / 2.0 && TileBox(l, width, height, i).height == height
  {
    var l := Layout(count, width, height);
    var tw := l.thumbWidth;
    assert (i as real) * tw + tw == ((i + 1) as real) * tw;
    assert ((l.cols - 1) as real) * tw + tw == (l.cols as real) * tw;
  }

  datatype VisibleInfo = VisibleInfo(totalGenerated: nat, currentlyVisible: int, thumbnailWidth: real, canvasWidth: real)

  datatype Tile = Tile(index: nat, frame: Frame, box: Box)

  /** The thumbnail images the decoder returns, one per requested
      timestamp; `None` is a frame that failed. */
  type DecodedFrames = seq<Option<Frame>>

  /** The thumbnails kept from the decoded frames: the successful ones, in
      order, never more than there are frames. */
  function Present(frames: DecodedFrames): (p: seq<Frame>)
    ensures |p| <= |frames|
    decreases |frames|
  {
    if frames == [] then []
    else
      var init := Present(frames[..|frames| - 1]);
      match frames[|frames| - 1]
      case Some(f) => init + [f]
      case None => init
  }

  lemma {:induction false} PresentAppend(a: DecodedFrames, b: DecodedFrames)
    ensures Present(a + b) == Present(a) + Present(b)
    decreases |b|
  {
    if b == [] {
      assert a + b == a;
    } else {
      var b' := b[..|b| - 1];
      assert (a + b)[..|a + b| - 1] == a + b';
      assert (a + b)[|a + b| - 1] == b[|b| - 1];
      PresentAppend(a, b');
    }
  }

  /** A failed frame leaves a gap: the frames after it are still kept. */
  lemma FailedFrameIsGap(a: DecodedFrames, b: DecodedFrames)
    ensures Present(a + [None] + b) == Present(a) + Present(b)
  {
    PresentAppend(a + [None], b);
    PresentAppend(a, [None]);
    assert a + [None] + b == (a + [None]) + b;
    var gap: DecodedFrames := [None];
    assert gap[..0] == [];
    assert Present(gap) == [];
  }

  /** A thumbnail is kept exactly when it was decoded. */
  lemma {:induction false} PresentMembers(frames: DecodedFrames, f: Frame)
    ensures f in Present(frames) <==> Some(f) in frames
    decreases |frames|
  {
    if frames != [] {
      var init := frames[..|frames| - 1];
      assert frames == init + [frames[|frames| - 1]];
      PresentMembers(init, f);
    }
  }

  /** When no frame fails every frame is kept, at its own position. */
  lemma {:induction false} PresentAllDecoded(frames: DecodedFrames)
    requires forall i :: 0 <= i < |frames| ==> frames[i].Some?
    ensures |Present(frames)| == |frames|
    ensures forall i :: 0 <= i < |frames| ==> Present(frames)[i] == frames[i].value
    decreases |frames|
  {
    if frames != [] {
      var init := frames[..|frames| - 1];
      PresentAllDecoded(init);
    }
  }

  /** The timestamps the frames are requested at: `count` of them, evenly
      spaced from `first` towards `last`. */
  function Timestamps(first: real, last: real, count: nat): (ts: seq<real>)
    ensures |ts| == count
  {
    seq(count, i requires 0 <= i < count => first + (i as real) * (last - first) / (count as real))
  }

  lemma TimestampsStartAndSpacing(first: real, last: real, count: nat, i: nat)
    requires i + 1 < count
    ensures Timestamps(first, last, count)[0] == first
    ensures Timestamps(first, last, count)[i + 1] - Timestamps(first, last, count)[i]
         == (last - first) / (count as real)
  {
    var d := last - first;
    var c := count as real;
    assert ((i + 1) as real) * d == (i as real) * d + d;
    assert ((i as real) * d + d) / c == (i as real) * d / c + d / c;
  }

  /** With `last > first` the timestamps strictly increase and stay in
      [first, last). */
  lemma TimestampsIncreasing(first: real, last: real, count: nat, i: nat, j: nat)
    requires last > first && i < j < count
    ensures var ts := Timestamps(first, last, count);
      first <= ts[i] < ts[j] < last
  {
    var d := last - first;
    var c := count as real;
    var ts := Timestamps(first, last, count);
    assert ts[i] == first + (i as real) * d / c;
    assert ts[j] == first + (j as real) * d / c;
    ScaledStep(i as real, j as real, c, d);
  }

  /** For 0 <= x < y < c and d > 0: 0 <= x*d/c < y*d/c < d. */
  lemma ScaledStep(x: real, y: real, c: real, d: real)
    requires 0.0 <= x < y < c && d > 0.0
    ensures 0.0 <= x * d / c < y * d / c < d
  {
    assert x * d < y * d;
    assert y * d < c * d;
    assert x * d / c < y * d / c;
    assert c * d / c == d;
    assert y * d / c < c * d / c;
  }

  datatype ThumbSize = ThumbSize(width: real, height: real)

  /** The thumbnail size: the larger display dimension gets `size`, the
      other the floor of its proportional share. */
  function ThumbSizeOf(size: real, displayWidth: real, displayHeight: real): (s: ThumbSize)
    requires displayWidth > 0.0 && displayHeight > 0.0
    ensures displayWidth > displayHeight ==> s.width == size && s.height == (size * displayHeight / displayWidth).Floor as real
    ensures displayHeight > displayWidth ==> s.height == size && s.width == (size * displayWidth / displayHeight).Floor as real
    ensures size >= 0.0 ==> s.width <= size && s.height <= size
  {
    var w := if displayWidth > displayHeight then size else (size * displayWidth / displayHeight).Floor as real;
    var h := if displayHeight > displayWidth then size else (size * displayHeight / displayWidth).Floor as real;
    assert size >= 0.0 && displayWidth <= displayHeight ==> size * displayWidth / displayHeight <= size by {
      if size >= 0.0 && displayWidth <= displayHeight {
        assert displayWidth / displayHeight <= 1.0;
        assert size * (displayWidth / displayHeight) <= size * 1.0;
        assert size * displayWidth / displayHeight == size * (displayWidth / displayHeight);
      }
    }
    assert size >= 0.0 && displayHeight <= displayWidth ==> size * displayHeight / displayWidth <= size by {
      if size >= 0.0 && displayHeight <= displayWidth {
        assert displayHeight / displayWidth <= 1.0;
        assert size * (displayHeight / displayWidth) <= size * 1.0;
        assert size * displayHeight / displayWidth == size * (displayHeight / displayWidth);
      }
    }
    ThumbSize(w, h)
  }

  /** What the decoder reports about the video track before frames are
      extracted; the first three abort generation. */
  datatype TrackProbe =
    | NoVideoTrack
    | UnsupportedCodec
    | Undecodable
    | Track(displayWidth: real, displayHeight: real, firstTimestamp: real, lastTimestamp: real)

  /** The frames and their size that generation asks the decoder for. */
  datatype FrameRequest = FrameRequest(timestamps: seq<real>, size: ThumbSize)

  datatype GenerationOutcome = Skipped | Failed(probe: TrackProbe) | Generated(request: FrameRequest)

  datatype ThumbnailOptions = ThumbnailOptions(
    left: Option<real>, top: Option<real>, width: Option<real>, height: Option<real>,
    videoFile: Option<VideoFile>, thumbnailCount: Option<nat>, thumbnailSize: Option<real>)

  class VideoThumbnailRect {
    var left: real
    var top: real
    var width: real
    var height: real
    var videoFile: Option<VideoFile>
    var thumbnailCount: nat
    var thumbnailSize: real
    var thumbnails: seq<Frame>
    /** Set when the strip needs repainting. */
    var dirty: bool

    function Bounds(): Box
      reads this
    {
      Box(left, top, width, height)
    }

    constructor(options: ThumbnailOptions)
      ensures Bounds() == Box(OrDefault(options.left, 0.0), OrDefault(options.top, 0.0),
                              OrDefault(options.width, 200.0), OrDefault(options.height, 100.0))
      ensures videoFile == (if HasVideo(options.videoFile) then options.videoFile else None)
      ensures thumbnailCount == (if options.thumbnailCount.Some? && options.thumbnailCount.value != 0
                                 then options.thumbnailCount.value else 16)
      ensures thumbnailSize == OrDefault(options.thumbnailSize, 200.0)
      ensures thumbnails == []
    {
      left := OrDefault(options.left, 0.0);
      top := OrDefault(options.top, 0.0);
      width := OrDefault(options.width, 200.0);
      height := OrDefault(options.height, 100.0);
      videoFile := if HasVideo(options.videoFile) then options.videoFile else None;
      thumbnailCount := if options.thumbnailCount.Some? && options.thumbnailCount.value != 0
                        then options.thumbnailCount.value else 16;
      thumbnailSize := OrDefault(options.thumbnailSize, 200.0);
      thumbnails := [];
      dirty := true;
    }

    /** `getThumbnailLayout`: no tiles without thumbnails, otherwise one
        row of equal columns spanning the strip's width and height, never
        more columns than thumbnails. */
    function GetThumbnailLayout(): (l: ThumbnailLayout)
      reads this
      requires LayoutDefined(|thumbnails|, width)
      ensures |thumbnails| == 0 ==> l.rows == 0 && l.cols == 0
      ensures |thumbnails| > 0 ==>
        l.rows == 1 && l.thumbHeight == height && l.cols <= |thumbnails| && (l.cols as real) * l.thumbWidth == width
      ensures |thumbnails| > 0 && width >= MinThumbnailWidth ==> 1 <= l.cols && l.thumbWidth >= MinThumbnailWidth
    {
      Layout(|thumbnails|, width, height)
    }

    /** `getVisibleThumbnailsInfo`: how many thumbnails exist, how many
        columns show and how wide each is. */
    function GetVisibleThumbnailsInfo(): (info: VisibleInfo)
      reads this
      requires LayoutDefined(|thumbnails|, width)
      ensures info.totalGenerated == |thumbnails| && info.canvasWidth == width
      ensures info.currentlyVisible <= info.totalGenerated
      ensures |thumbnails| == 0 ==> info.currentlyVisible == 0 && info.thumbnailWidth == 0.0
      ensures |thumbnails| > 0 ==> (info.currentlyVisible as real) * info.thumbnailWidth == width
    {
      var l := GetThumbnailLayout();
      VisibleInfo(|thumbnails|, l.cols, l.thumbWidth, width)
    }

    /** The tiles `_render` draws: nothing without thumbnails, otherwise one
        tile per column in row 0, showing the thumbnail of that column. */
    method RenderTiles() returns (tiles: seq<Tile>)
      requires LayoutDefined(|thumbnails|, width)
      ensures |thumbnails| == 0 ==> tiles == []
      ensures |thumbnails| > 0 ==>
        |tiles| == (if GetThumbnailLayout().cols < 0 then 0 else GetThumbnailLayout().cols)
      ensures forall i :: 0 <= i < |tiles| ==>
        i < |thumbnails| && tiles[i] == Tile(i, thumbnails[i], TileBox(GetThumbnailLayout(), width, height, i))
    {
      tiles := [];
      if |thumbnails| == 0 {
        return;
      }
      var l := GetThumbnailLayout();
      var cols := l.cols;
      var i := 0;
      while i < cols
        invariant 0 <= i && (cols >= 0 ==> i <= cols) && (cols < 0 ==> i == 0) && |tiles| == i
        invariant forall k :: 0 <= k < i ==>
          k < |thumbnails| && tiles[k] == Tile(k, thumbnails[k], TileBox(l, width, height, k))
      {
        var row := i / cols;
        var col := i % cols;
        var x := -width / 2.0 + (col as real) * l.thumbWidth;
        var y := -height / 2.0 + (row as real) * l.thumbHeight;
        assert row == 0 && col == i;
        tiles := tiles + [Tile(i, thumbnails[i], Box(x, y, l.thumbWidth, l.thumbHeight))];
        i := i + 1;
      }
    }

    /** Lines 148-165 of generation: the thumbnails restart empty and every
        decoded frame is appended in order; a failed frame is skipped. */
    method CollectFrames(frames: DecodedFrames)
      modifies this`thumbnails, this`dirty
      ensures thumbnails == Present(frames) && dirty
    {
      thumbnails := [];
      var i := 0;
      while i < |frames|
        invariant 0 <= i <= |frames|
        invariant thumbnails == Present(frames[..i])
      {
        assert frames[..i + 1][..i] == frames[..i];
        if frames[i].Some? {
          thumbnails := thumbnails + [frames[i].value];
        }
        i := i + 1;
      }
      assert frames[..i] == frames;
      dirty := true;
    }

    /** `generateThumbnails` with the decoder's answers as inputs: nothing
        happens without a video file or when thumbnails already exist; a
        failed probe aborts before the thumbnails are touched; otherwise the
        frames are requested at the evenly spaced timestamps and the decoded
        ones become the thumbnails. The decoder yields one result per
        requested timestamp, so there are at most `thumbnailCount`. */
    method GenerateThumbnails(probe: TrackProbe, frames: DecodedFrames) returns (outcome: GenerationOutcome)
      requires probe.Track? ==> probe.displayWidth > 0.0 && probe.displayHeight > 0.0
      requires probe.Track? ==> |frames| == thumbnailCount
      modifies this`thumbnails, this`dirty
      ensures (!HasVideo(videoFile) || |old(thumbnails)| > 0) ==>
        outcome == Skipped && thumbnails == old(thumbnails) && dirty == old(dirty)
      ensures HasVideo(videoFile) && |old(thumbnails)| == 0 && !probe.Track? ==>
        outcome == Failed(probe) && thumbnails == old(thumbnails) && dirty == old(dirty)
      ensures HasVideo(videoFile) && |old(thumbnails)| == 0 && probe.Track? ==>
        && outcome == Generated(FrameRequest(
             Timestamps(probe.firstTimestamp, probe.lastTimestamp, thumbnailCount),
             ThumbSizeOf(thumbnailSize, probe.displayWidth, probe.displayHeight)))
        && thumbnails == Present(frames) && dirty
        && |thumbnails| <= thumbnailCount
    {
      if !HasVideo(videoFile) {
        return Skipped;
      }
      if |thumbnails| > 0 {
        return Skipped;
      }
      if !probe.Track? {
        return Failed(probe);
      }
      var size := ThumbSizeOf(thumbnailSize, probe.displayWidth, probe.displayHeight);
      var timestamps := Timestamps(probe.firstTimestamp, probe.lastTimestamp, thumbnailCount);
      CollectFrames(frames);
      outcome := Generated(FrameRequest(timestamps, size));
    }

    method ClearThumbnails()
      modifies this`thumbnails
      ensures thumbnails == []
    {
      thumbnails := [];
    }

    /** `updateThumbnailLayout`: a repaint is requested only when there are
        thumbnails. */
    method UpdateThumbnailLayout()
      modifies this`dirty
      ensures dirty == (old(dirty) || |thumbnails| > 0)
    {
      if |thumbnails| == 0 {
        return;
      }
      dirty := true;
    }

    method SetVideoFile(f: VideoFile)
      modifies this`videoFile
      ensures videoFile == Some(f)
    {
      videoFile := Some(f);
    }

    method SetThumbnailCount(count: nat)
      modifies this`thumbnailCount
      ensures thumbnailCount == count
    {
      thumbnailCount := count;
    }

    method SetThumbnailSize(size: real)
      modifies this`thumbnailSize
      ensures thumbnailSize == size
    {
      thumbnailSize := size;
    }

    /** `set("width", w)`. */
    method SetWidth(w: real)
      modifies this`width
      ensures width == w
    {
      width := w;
    }
  }
}
