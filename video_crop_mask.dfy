/** The overlay of src/components/video-crop-mask.ts: the mask rectangle
    minus the crop area, painted as up to four strips. */
module CropMask {
  import opened Geometry

  datatype Side = TopStrip | BottomStrip | LeftStrip | RightStrip

  /** A painted strip and which of the four it is. */
  datatype Strip = Strip(side: Side, box: Box)

  /** Paint order of the strips. */
  function Rank(s: Side): nat
  {
    match s
    case TopStrip => 0
    case BottomStrip => 1
    case LeftStrip => 2
    case RightStrip => 3
  }

  /** The guard `_render` tests before painting the strip on side `s` of
      crop `c` in mask `m` (both in the same frame). */
  predicate Guard(m: Box, c: Box, s: Side)
  {
    match s
    case TopStrip => c.top > m.top
    case BottomStrip => c.top + c.height < m.top + m.height
    case LeftStrip => c.left > m.left
    case RightStrip => c.left + c.width < m.left + m.width
  }

  /** The strip `_render` paints on side `s` when its guard holds: top and
      bottom span the whole mask width, left and right only the crop's
      band. */
  function Candidate(m: Box, c: Box, s: Side): (r: Strip)
    ensures r.side == s
  {
    match s
    case TopStrip => Strip(TopStrip, Box(m.left, m.top, m.width, c.top - m.top))
    case BottomStrip =>
      Strip(BottomStrip, Box(m.left, c.top + c.height, m.width, (m.top + m.height) - (c.top + c.height)))
    case LeftStrip => Strip(LeftStrip, Box(m.left, c.top, c.left - m.left, c.height))
    case RightStrip =>
      Strip(RightStrip, Box(c.left + c.width, c.top, (m.left + m.width) - (c.left + c.width), c.height))
  }

  /** The guard is exactly "the guarded dimension of the strip is strictly
      positive", and the band/full-width shape of each strip. */
  lemma GuardMeansPositive(m: Box, c: Box, s: Side)
    ensures var b := Candidate(m, c, s).box;
      && (s == TopStrip || s == BottomStrip ==> b.left == m.left && b.width == m.width && (Guard(m, c, s) <==> b.height > 0.0))
      && (s == LeftStrip || s == RightStrip ==> b.top == c.top && b.height == c.height && (Guard(m, c, s) <==> b.width > 0.0))
  {
  }

  function Part(m: Box, c: Box, s: Side): (p: seq<Strip>)
  {
    if Guard(m, c, s) then [Candidate(m, c, s)] else []
  }

  /** The strips of mask `m` around crop `c`, in paint order: top, bottom,
      left, right, each only when its guard holds. */
  function StripsOf(m: Box, c: Box): (ss: seq<Strip>)
    ensures |ss| <= 4
  {
    Part(m, c, TopStrip) + Part(m, c, BottomStrip) + Part(m, c, LeftStrip) + Part(m, c, RightStrip)
  }

  /** A strip is painted exactly when it is the candidate of its side and
      that side's guard holds. */
  lemma StripsOfMembers(m: Box, c: Box, s: Strip)
    ensures s in StripsOf(m, c) <==> Guard(m, c, s.side) && s == Candidate(m, c, s.side)
  {
    var ss := StripsOf(m, c);
    assert ss == Part(m, c, TopStrip) + (Part(m, c, BottomStrip) + (Part(m, c, LeftStrip) + Part(m, c, RightStrip)));
  }

  predicate Ordered(ss: seq<Strip>)
  {
    forall i, j :: 0 <= i < j < |ss| ==> Rank(ss[i].side) < Rank(ss[j].side)
  }

  lemma OrderedAppend(a: seq<Strip>, b: seq<Strip>)
    requires Ordered(a) && Ordered(b)
    requires forall x, y :: x in a && y in b ==> Rank(x.side) < Rank(y.side)
    ensures Ordered(a + b)
  {
    var ab := a + b;
    forall i, j | 0 <= i < j < |ab| ensures Rank(ab[i].side) < Rank(ab[j].side) {
      if j < |a| {
        assert ab[i] == a[i] && ab[j] == a[j];
      } else if i >= |a| {
        assert ab[i] == b[i - |a|] && ab[j] == b[j - |a|];
      } else {
        assert ab[i] == a[i] && ab[j] == b[j - |a|];
        assert ab[i] in a && ab[j] in b;
      }
    }
  }

  /** The strips come in the order top, bottom, left, right. */
  lemma StripsOfOrdered(m: Box, c: Box)
    ensures Ordered(StripsOf(m, c))
  {
    var t, b, l, r := Part(m, c, TopStrip), Part(m, c, BottomStrip), Part(m, c, LeftStrip), Part(m, c, RightStrip);
    OrderedAppend(t, b);
    OrderedAppend(t + b, l);
    OrderedAppend(t + b + l, r);
  }

  /** The mask in its own drawing frame, centred on the origin. */
  function LocalMask(mask: Box): (r: Box)
    ensures r.width == mask.width && r.height == mask.height
    ensures r.left + r.width / 2.0 == 0.0 && r.top + r.height / 2.0 == 0.0
  {
    Box(-mask.width / 2.0, -mask.height / 2.0, mask.width, mask.height)
  }

  /** The crop area in the mask's drawing frame: placed relative to the
      mask's left and top: its offset from the mask's corner is the same in
      both frames. */
  function LocalCrop(mask: Box, crop: Box): (r: Box)
    ensures r.left - LocalMask(mask).left == crop.left - mask.left
    ensures r.top - LocalMask(mask).top == crop.top - mask.top
    ensures r.width == crop.width && r.height == crop.height
  {
    Box(-mask.width / 2.0 + (crop.left - mask.left), -mask.height / 2.0 + (crop.top - mask.top),
        crop.width, crop.height)
  }

  /** The strips `_render` paints for a mask with these bounds and crop
      area, in the mask's drawing frame: at most four, and none when the
      crop area is the whole mask. */
  function MaskStrips(mask: Box, crop: Box): (ss: seq<Strip>)
    ensures |ss| <= 4
    ensures crop == mask ==> ss == []
  {
    StripsOf(LocalMask(mask), LocalCrop(mask, crop))
  }

  /** A box of the drawing frame in canvas coordinates. */
  function ToCanvas(b: Box, mask: Box): Box
  {
    Box(b.left + mask.left + mask.width / 2.0, b.top + mask.top + mask.height / 2.0, b.width, b.height)
  }

  predicate Inside(inner: Box, outer: Box)
  {
    0.0 <= inner.width && 0.0 <= inner.height
    && outer.left <= inner.left && inner.left + inner.width <= outer.left + outer.width
    && outer.top <= inner.top && inner.top + inner.height <= outer.top + outer.height
  }

  predicate Covered(ss: seq<Strip>, x: real, y: real)
  {
    exists s :: s in ss && InBox(s.box, x, y)
  }

  /** With the crop inside the mask, a point of the mask lies in the crop or
      in a painted strip, and a point of a painted strip lies in the
      mask. */
  lemma StripsCoverMask(m: Box, c: Box, x: real, y: real)
    requires Inside(c, m)
    ensures InBox(m, x, y) <==> InBox(c, x, y) || Covered(StripsOf(m, c), x, y)
  {
    var ss := StripsOf(m, c);
    if InBox(m, x, y) && !InBox(c, x, y) {
      var side := if y < c.top then TopStrip
        else if y >= c.top + c.height then BottomStrip
        else if x < c.left then LeftStrip
        else RightStrip;
      StripsOfMembers(m, c, Candidate(m, c, side));
      assert InBox(Candidate(m, c, side).box, x, y);
    }
    if Covered(ss, x, y) {
      var s :| s in ss && InBox(s.box, x, y);
      StripsOfMembers(m, c, s);
    }
  }

  /** With the crop inside the mask, no point lies in two different painted
      strips, or in a painted strip and the crop. */
  lemma StripsDisjoint(m: Box, c: Box, s1: Strip, s2: Strip, x: real, y: real)
    requires Inside(c, m)
    requires s1 in StripsOf(m, c) && s2 in StripsOf(m, c) && s1 != s2
    ensures !(InBox(s1.box, x, y) && InBox(s2.box, x, y))
    ensures !(InBox(s1.box, x, y) && InBox(c, x, y))
  {
    StripsOfMembers(m, c, s1);
    StripsOfMembers(m, c, s2);
  }

  /** Moving the mask and its crop area together changes nothing drawn. */
  lemma TranslationInvariant(mask: Box, crop: Box, dx: real, dy: real)
    ensures MaskStrips(Box(mask.left + dx, mask.top + dy, mask.width, mask.height),
                       Box(crop.left + dx, crop.top + dy, crop.width, crop.height))
         == MaskStrips(mask, crop)
  {
    var m2 := Box(mask.left + dx, mask.top + dy, mask.width, mask.height);
    var c2 := Box(crop.left + dx, crop.top + dy, crop.width, crop.height);
    assert LocalCrop(m2, c2) == LocalCrop(mask, crop);
  }

  /** Mapped back to the canvas, the drawing frame's mask and crop are the
      mask's bounds and its crop area. */
  lemma LocalFrameRoundTrip(mask: Box, crop: Box)
    ensures ToCanvas(LocalMask(mask), mask) == mask
    ensures ToCanvas(LocalCrop(mask, crop), mask) == crop
  {
  }

  /** A 400x80 mask with a 150-pixel crop at x = 100 paints the two strips
      (0, 0, 100, 80) and (250, 0, 150, 80) of the canvas. */
  lemma TwoStripExample()
    ensures var mask := Box(0.0, 0.0, 400.0, 80.0);
      var ss := MaskStrips(mask, Box(100.0, 0.0, 150.0, 80.0));
      && |ss| == 2
      && ss[0].side == LeftStrip && ToCanvas(ss[0].box, mask) == Box(0.0, 0.0, 100.0, 80.0)
      && ss[1].side == RightStrip && ToCanvas(ss[1].box, mask) == Box(250.0, 0.0, 150.0, 80.0)
  {
  }

  class VideoCropMask {
    var left: real
    var top: real
    var width: real
    var height: real
    var cropLeft: real
    var cropTop: real
    var cropWidth: real
    var cropHeight: real
    /** Set when the mask needs repainting. */
    var dirty: bool

    function Bounds(): Box
      reads this
    {
      Box(left, top, width, height)
    }

    function CropArea(): Box
      reads this
    {
      Box(cropLeft, cropTop, cropWidth, cropHeight)
    }

    /** What `_render` paints, in the mask's drawing frame. */
    function Strips(): seq<Strip>
      reads this
    {
      MaskStrips(Bounds(), CropArea())
    }

    constructor()
      ensures Bounds() == Box(0.0, 0.0, 0.0, 0.0) && CropArea() == Box(0.0, 0.0, 0.0, 0.0)
    {
      left, top, width, height := 0.0, 0.0, 0.0, 0.0;
      cropLeft, cropTop, cropWidth, cropHeight := 0.0, 0.0, 0.0, 0.0;
      dirty := true;
    }

    /** `mask.set({left, top, width, height})`. */
    method SetBounds(b: Box)
      modifies this`left, this`top, this`width, this`height
      ensures Bounds() == b
    {
      left, top, width, height := b.left, b.top, b.width, b.height;
    }

    /** `mask.set({width, height})`. */
    method SetSize(w: real, h: real)
      modifies this`width, this`height
      ensures width == w && height == h
    {
      width, height := w, h;
    }

    /** `updateCropArea`: store the four values and mark the mask dirty;
        the mask's own bounds stay as they are. */
    method UpdateCropArea(l: real, t: real, w: real, h: real)
      modifies this`cropLeft, this`cropTop, this`cropWidth, this`cropHeight, this`dirty
      ensures CropArea() == Box(l, t, w, h) && dirty
    {
      cropLeft := l;
      cropTop := t;
      cropWidth := w;
      cropHeight := h;
      dirty := true;
    }
  }
}
