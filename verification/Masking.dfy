/**
 Screenshot masking. Regions are rectangles with real coordinates; an image is a grid of pixels,
 row by row. A region that meets the capture is painted over with a margin of sixteen pixels,
 and no coordinate action inside a painted rectangle is accepted.
 */
module Masking {
  import opened Wrappers

  type Color = nat

  const BLACK: Color := 0
  const MARGIN: int := 16
  const MAX_REGIONS: nat := 100

  /** A coordinate as it arrives: a finite number, or something that is not one. */
  datatype Number = Finite(value: real) | NotFinite

  datatype Region = Region(x: Number, y: Number, width: Number, height: Number, maskSafe: bool)

  /** A painted rectangle. */
  datatype Rect = Rect(x: int, y: int, width: int, height: int)

  datatype Reason = TooManyRegions | MaskUnsafe | MaskUnbounded
  datatype Result<+T> = Masked(value: T) | Blocked(reason: Reason)

  function Ceil(r: real): int { -((-r).Floor) }

  predicate AllFinite(r: Region) { r.x.Finite? && r.y.Finite? && r.width.Finite? && r.height.Finite? }

  predicate Bounded(r: Region) { AllFinite(r) && r.width.value >= 0.0 && r.height.value >= 0.0 }

  function Max(a: int, b: int): int { if a >= b then a else b }
  function Min(a: int, b: int): int { if a <= b then a else b }

  // ---- which regions are masked -------------------------------------------------------------

  /** In page coordinates for a full-page capture. */
  function Shifted(r: Region, scrollX: real, scrollY: real, fullPage: bool): Region
    requires AllFinite(r)
  {
    if fullPage then r.(x := Finite(r.x.value + scrollX), y := Finite(r.y.value + scrollY)) else r
  }

  /** The region's rectangle reaches into the capture. */
  predicate Inside(r: Region, width: nat, height: nat)
    requires AllFinite(r)
  {
    r.x.value < width as real && r.y.value < height as real
    && r.x.value + r.width.value > 0.0 && r.y.value + r.height.value > 0.0
  }

  function Kept(regions: seq<Region>, scrollX: real, scrollY: real, width: nat, height: nat, fullPage: bool): Result<seq<Region>>
    requires forall i :: 0 <= i < |regions| ==> AllFinite(regions[i])
  {
    if regions == [] then Masked([])
    else
      var last := Shifted(regions[|regions| - 1], scrollX, scrollY, fullPage);
      match Kept(regions[..|regions| - 1], scrollX, scrollY, width, height, fullPage)
      case Blocked(reason) => Blocked(reason)
      case Masked(before) =>
        if Inside(last, width, height) then Masked(before + [last])
        else if !last.maskSafe then Blocked(MaskUnbounded)
        else Masked(before)
  }

  method CaptureRegions(regions: seq<Region>, scrollX: real, scrollY: real, width: nat, height: nat, fullPage: bool)
    returns (result: Result<seq<Region>>)
    requires forall i :: 0 <= i < |regions| ==> AllFinite(regions[i])
    ensures result == Kept(regions, scrollX, scrollY, width, height, fullPage)
  {
    var kept: seq<Region> := [];
    var i := 0;
    while i < |regions|
      invariant 0 <= i <= |regions| && Kept(regions[..i], scrollX, scrollY, width, height, fullPage) == Masked(kept)
    {
      var region := regions[i];
      if fullPage {
        region := region.(x := Finite(region.x.value + scrollX), y := Finite(region.y.value + scrollY));
      }
      assert regions[..i + 1][..i] == regions[..i];
      if Inside(region, width, height) {
        kept := kept + [region];
      } else if !region.maskSafe {
        BlockedStays(regions, i + 1, scrollX, scrollY, width, height, fullPage, MaskUnbounded);
        return Blocked(MaskUnbounded);
      }
      i := i + 1;
    }
    assert regions[..|regions|] == regions;
    result := Masked(kept);
  }

  lemma {:induction false} BlockedStays(regions: seq<Region>, i: nat, scrollX: real, scrollY: real, width: nat, height: nat,
                                        fullPage: bool, reason: Reason)
    requires (forall x :: 0 <= x < |regions| ==> AllFinite(regions[x])) && i <= |regions|
    requires Kept(regions[..i], scrollX, scrollY, width, height, fullPage) == Blocked(reason)
    ensures Kept(regions, scrollX, scrollY, width, height, fullPage) == Blocked(reason)
    decreases |regions|
  {
    if i == |regions| {
      assert regions[..i] == regions;
    } else {
      var front := regions[..|regions| - 1];
      assert front[..i] == regions[..i];
      BlockedStays(front, i, scrollX, scrollY, width, height, fullPage, reason);
    }
  }

  // ---- painting -------------------------------------------------------------------------------

  /** The region widened by the margin and clipped to the image; none if nothing is left. */
  function RectOf(r: Region, width: nat, height: nat): Option<Rect>
    requires AllFinite(r)
  {
    var left := Max(0, r.x.value.Floor - MARGIN);
    var top := Max(0, r.y.value.Floor - MARGIN);
    var right := Min(width, Ceil(r.x.value + r.width.value) + MARGIN);
    var bottom := Min(height, Ceil(r.y.value + r.height.value) + MARGIN);
    if left >= right || top >= bottom then None else Some(Rect(left, top, right - left, bottom - top))
  }

  function Rects(regions: seq<Region>, width: nat, height: nat): Result<seq<Rect>> {
    if regions == [] then Masked([])
    else
      var last := regions[|regions| - 1];
      match Rects(regions[..|regions| - 1], width, height)
      case Blocked(reason) => Blocked(reason)
      case Masked(before) =>
        if !Bounded(last) then Blocked(MaskUnbounded)
        else
          match RectOf(last, width, height)
          case None => Masked(before)
          case Some(rect) => Masked(before + [rect])
  }

  predicate Covers(rect: Rect, x: int, y: int) {
    rect.x <= x < rect.x + rect.width && rect.y <= y < rect.y + rect.height
  }

  predicate Covered(rects: seq<Rect>, x: int, y: int) {
    exists k :: 0 <= k < |rects| && Covers(rects[k], x, y)
  }

  /** The rectangle lies in the image and is not empty. */
  predicate Fits(rect: Rect, width: nat, height: nat) {
    0 <= rect.x && 0 < rect.width && rect.x + rect.width <= width && 0 <= rect.y && 0 < rect.height && rect.y + rect.height <= height
  }

  /** What masking makes of a pixel. */
  predicate PaintedOver(image: array2<Color>, before: seq<seq<Color>>, rects: seq<Rect>)
    reads image
    requires |before| == image.Length0 && forall y :: 0 <= y < |before| ==> |before[y]| == image.Length1
  {
    forall x, y :: 0 <= y < image.Length0 && 0 <= x < image.Length1 ==>
      image[y, x] == if Covered(rects, x, y) then BLACK else before[y][x]
  }

  ghost function Pixels(image: array2<Color>): (p: seq<seq<Color>>)
    reads image
    ensures |p| == image.Length0 && forall y :: 0 <= y < |p| ==> |p[y]| == image.Length1
    ensures forall x, y :: 0 <= y < image.Length0 && 0 <= x < image.Length1 ==> p[y][x] == image[y, x]
  {
    seq(image.Length0, y requires 0 <= y < image.Length0 reads image =>
      seq(image.Length1, x requires 0 <= x < image.Length1 reads image => image[y, x]))
  }

  method FillRectangle(image: array2<Color>, rect: Rect)
    requires Fits(rect, image.Length1, image.Length0)
    modifies image
    ensures forall x, y :: 0 <= y < image.Length0 && 0 <= x < image.Length1 ==>
      image[y, x] == if Covers(rect, x, y) then BLACK else old(image[y, x])
  {
    var y := rect.y;
    while y < rect.y + rect.height
      invariant rect.y <= y <= rect.y + rect.height
      invariant forall i, j :: 0 <= j < image.Length0 && 0 <= i < image.Length1 ==>
        image[j, i] == if Covers(rect, i, j) && j < y then BLACK else old(image[j, i])
    {
      var x := rect.x;
      while x < rect.x + rect.width
        invariant rect.x <= x <= rect.x + rect.width
        invariant forall i, j :: 0 <= j < image.Length0 && 0 <= i < image.Length1 ==>
          image[j, i] == if Covers(rect, i, j) && (j < y || (j == y && i < x)) then BLACK else old(image[j, i])
      {
        image[y, x] := BLACK;
        x := x + 1;
      }
      y := y + 1;
    }
  }

  /** Paints every region of a decoded image over, in place. */
  method MaskFrames(image: array2<Color>, regions: seq<Region>, width: nat, height: nat) returns (result: Result<seq<Rect>>)
    modifies image
    ensures result.Masked? <==>
      |regions| <= MAX_REGIONS && (forall i :: 0 <= i < |regions| ==> regions[i].maskSafe && Bounded(regions[i]))
      && image.Length1 == width && image.Length0 == height
    ensures result.Masked? ==>
      Rects(regions, width, height) == result && PaintedOver(image, old(Pixels(image)), result.value)
    ensures result.Blocked? && result.reason.TooManyRegions? <==> |regions| > MAX_REGIONS
    ensures result.Blocked? && result.reason.MaskUnbounded? ==> exists i :: 0 <= i < |regions| && !Bounded(regions[i])
  {
    if |regions| > MAX_REGIONS { return Blocked(TooManyRegions); }
    if exists i :: 0 <= i < |regions| && !regions[i].maskSafe { return Blocked(MaskUnsafe); }
    if image.Length1 != width || image.Length0 != height { return Blocked(MaskUnsafe); }
    var masked: seq<Rect> := [];
    var i := 0;
    while i < |regions|
      invariant 0 <= i <= |regions| && Rects(regions[..i], width, height) == Masked(masked)
      invariant forall k :: 0 <= k < i ==> Bounded(regions[k])
      invariant PaintedOver(image, old(Pixels(image)), masked)
    {
      if !Bounded(regions[i]) { return Blocked(MaskUnbounded); }
      assert regions[..i + 1][..i] == regions[..i];
      var rect := RectOf(regions[i], width, height);
      if rect.Some? {
        FillRectangle(image, rect.value);
        OneMore(masked, rect.value);
        masked := masked + [rect.value];
      }
      i := i + 1;
    }
    assert regions[..|regions|] == regions;
    result := Masked(masked);
  }

  lemma OneMore(rects: seq<Rect>, rect: Rect)
    ensures forall x, y :: Covered(rects + [rect], x, y) <==> Covered(rects, x, y) || Covers(rect, x, y)
  {
    forall x, y
      ensures Covered(rects + [rect], x, y) <==> Covered(rects, x, y) || Covers(rect, x, y)
    {
      if Covered(rects, x, y) {
        var k :| 0 <= k < |rects| && Covers(rects[k], x, y);
        assert (rects + [rect])[k] == rects[k];
      }
      if Covers(rect, x, y) { assert (rects + [rect])[|rects|] == rect; }
    }
  }

  // ---- coverage ---------------------------------------------------------------------------------

  /** The pixel's square touches the region, edges included. */
  predicate Touches(r: Region, x: int, y: int)
    requires AllFinite(r)
  {
    r.x.value <= (x + 1) as real && x as real <= r.x.value + r.width.value
    && r.y.value <= (y + 1) as real && y as real <= r.y.value + r.height.value
  }

  /** The pixel's square and the region overlap in more than an edge. */
  predicate Overlaps(r: Region, x: int, y: int)
    requires AllFinite(r)
  {
    r.x.value < (x + 1) as real && (x as real) < r.x.value + r.width.value
    && r.y.value < (y + 1) as real && (y as real) < r.y.value + r.height.value
  }

  /** The pixel of this capture overlaps the region; a full-page capture shows the page's own
      coordinates, which are those of the viewport moved on by the scroll offsets. */
  predicate Shows(r: Region, scrollX: real, scrollY: real, fullPage: bool, x: int, y: int)
    requires AllFinite(r)
  {
    var left := r.x.value + if fullPage then scrollX else 0.0;
    var top := r.y.value + if fullPage then scrollY else 0.0;
    left < (x + 1) as real && (x as real) < left + r.width.value && top < (y + 1) as real && (y as real) < top + r.height.value
  }

  /** The pixel's square comes closer to the region than the given distance. */
  predicate Near(r: Region, x: int, y: int, distance: real)
    requires AllFinite(r)
  {
    r.x.value - distance < (x + 1) as real && (x as real) < r.x.value + r.width.value + distance
    && r.y.value - distance < (y + 1) as real && (y as real) < r.y.value + r.height.value + distance
  }

  lemma FloorCeil(r: real)
    ensures r.Floor as real <= r < (r.Floor + 1) as real
    ensures (Ceil(r) - 1) as real < r <= Ceil(r) as real
  {
  }

  /** A region that meets the capture gives a rectangle; it contains every pixel that the region
      touches or that comes closer to it than sixteen pixels, and none that is further away than
      seventeen. */
  lemma RectContains(r: Region, width: nat, height: nat)
    requires Bounded(r) && Inside(r, width, height) && 0 < width && 0 < height
    ensures RectOf(r, width, height).Some? && Fits(RectOf(r, width, height).value, width, height)
    ensures forall x, y :: 0 <= x < width && 0 <= y < height && Touches(r, x, y) ==> Covers(RectOf(r, width, height).value, x, y)
    ensures forall x, y :: 0 <= x < width && 0 <= y < height ==>
      (Near(r, x, y, 16.0) ==> Covers(RectOf(r, width, height).value, x, y))
      && (Covers(RectOf(r, width, height).value, x, y) ==> Near(r, x, y, 17.0))
  {
    FloorCeil(r.x.value);
    FloorCeil(r.y.value);
    FloorCeil(r.x.value + r.width.value);
    FloorCeil(r.y.value + r.height.value);
  }

  /** A region that is dropped overlaps no pixel of the capture. */
  lemma DroppedIsDisjoint(r: Region, width: nat, height: nat, x: int, y: int)
    requires AllFinite(r) && !Inside(r, width, height) && 0 <= x < width && 0 <= y < height
    ensures !Overlaps(r, x, y)
  {
  }

  lemma {:induction false} RectsContain(regions: seq<Region>, width: nat, height: nat, k: nat, x: int, y: int)
    requires Rects(regions, width, height).Masked? && k < |regions| && Bounded(regions[k]) && Inside(regions[k], width, height)
    requires 0 <= x < width && 0 <= y < height && Touches(regions[k], x, y)
    ensures Covered(Rects(regions, width, height).value, x, y)
    decreases |regions|
  {
    var front := regions[..|regions| - 1];
    var before := Rects(front, width, height).value;
    if k == |regions| - 1 {
      RectContains(regions[k], width, height);
      OneMore(before, RectOf(regions[k], width, height).value);
    } else {
      RectsContain(front, width, height, k, x, y);
      if RectOf(regions[|regions| - 1], width, height).Some? {
        OneMore(before, RectOf(regions[|regions| - 1], width, height).value);
      }
    }
  }

  lemma {:induction false} KeptAre(regions: seq<Region>, scrollX: real, scrollY: real, width: nat, height: nat, fullPage: bool)
    requires forall i :: 0 <= i < |regions| ==> AllFinite(regions[i])
    requires Kept(regions, scrollX, scrollY, width, height, fullPage).Masked?
    ensures var kept := Kept(regions, scrollX, scrollY, width, height, fullPage).value;
      (forall k :: 0 <= k < |kept| ==> AllFinite(kept[k]) && Inside(kept[k], width, height))
      && forall i :: 0 <= i < |regions| ==>
           Shifted(regions[i], scrollX, scrollY, fullPage) in kept
           || (!Inside(Shifted(regions[i], scrollX, scrollY, fullPage), width, height) && regions[i].maskSafe)
    decreases |regions|
  {
    if regions != [] {
      var front := regions[..|regions| - 1];
      KeptAre(front, scrollX, scrollY, width, height, fullPage);
      forall i | 0 <= i < |regions|
        ensures var r := Shifted(regions[i], scrollX, scrollY, fullPage);
          r in Kept(regions, scrollX, scrollY, width, height, fullPage).value || (!Inside(r, width, height) && regions[i].maskSafe)
      {
        if i < |front| { assert front[i] == regions[i]; }
      }
    }
  }

  /** Coverage: whenever the capture is masked, every captured pixel that overlaps a region, as
      this capture shows it, is painted over, whether the region was kept or dropped. */
  lemma EveryRegionCovered(regions: seq<Region>, scrollX: real, scrollY: real, width: nat, height: nat, fullPage: bool,
                           i: nat, x: int, y: int)
    requires forall j :: 0 <= j < |regions| ==> AllFinite(regions[j])
    requires Kept(regions, scrollX, scrollY, width, height, fullPage).Masked?
    requires Rects(Kept(regions, scrollX, scrollY, width, height, fullPage).value, width, height).Masked?
    requires i < |regions| && 0 <= x < width && 0 <= y < height
    requires Shows(regions[i], scrollX, scrollY, fullPage, x, y)
    ensures Covered(Rects(Kept(regions, scrollX, scrollY, width, height, fullPage).value, width, height).value, x, y)
  {
    var r := Shifted(regions[i], scrollX, scrollY, fullPage);
    assert Overlaps(r, x, y);
    var kept := Kept(regions, scrollX, scrollY, width, height, fullPage).value;
    KeptAre(regions, scrollX, scrollY, width, height, fullPage);
    if r in kept {
      var k :| 0 <= k < |kept| && kept[k] == r;
      RectsBounded(kept, width, height, k);
      RectsContain(kept, width, height, k, x, y);
    } else {
      DroppedIsDisjoint(r, width, height, x, y);
    }
  }

  lemma {:induction false} RectsBounded(regions: seq<Region>, width: nat, height: nat, k: nat)
    requires Rects(regions, width, height).Masked? && k < |regions|
    ensures Bounded(regions[k])
    decreases |regions|
  {
    if k < |regions| - 1 { RectsBounded(regions[..|regions| - 1], width, height, k); }
  }

  /** Every kept region is painted: as many rectangles as kept regions, none empty. */
  lemma {:induction false} KeptAreVisible(regions: seq<Region>, width: nat, height: nat)
    requires Rects(regions, width, height).Masked? && 0 < width && 0 < height
    requires forall k :: 0 <= k < |regions| ==> AllFinite(regions[k]) && Inside(regions[k], width, height)
    ensures var rects := Rects(regions, width, height).value;
      |rects| == |regions| && forall k :: 0 <= k < |rects| ==> Fits(rects[k], width, height)
    decreases |regions|
  {
    if regions != [] {
      KeptAreVisible(regions[..|regions| - 1], width, height);
      RectContains(regions[|regions| - 1], width, height);
    }
  }

  // ---- the capture as a whole -------------------------------------------------------------------

  predicate FiniteRegions(regions: seq<Region>) { forall i :: 0 <= i < |regions| ==> AllFinite(regions[i]) }

  /** Every pixel of the image that overlaps one of the regions, as this capture sees them, is black. */
  predicate Hides(image: array2<Color>, regions: seq<Region>, scrollX: real, scrollY: real, fullPage: bool)
    requires FiniteRegions(regions)
    reads image
  {
    forall i, x, y | 0 <= i < |regions| && 0 <= y < image.Length0 && 0 <= x < image.Length1
      && Shows(regions[i], scrollX, scrollY, fullPage, x, y) :: image[y, x] == BLACK
  }

  lemma {:induction false} RectsJoin(a: seq<Region>, b: seq<Region>, width: nat, height: nat)
    requires Rects(a + b, width, height).Masked?
    ensures Rects(a, width, height).Masked? && Rects(b, width, height).Masked?
    ensures Rects(a + b, width, height).value == Rects(a, width, height).value + Rects(b, width, height).value
    decreases |b|
  {
    if b == [] {
      assert a + b == a;
    } else {
      assert (a + b)[..|a + b| - 1] == a + b[..|b| - 1];
      RectsJoin(a, b[..|b| - 1], width, height);
    }
  }

  lemma CoveredJoin(a: seq<Rect>, b: seq<Rect>, x: int, y: int)
    ensures Covered(a, x, y) || Covered(b, x, y) ==> Covered(a + b, x, y)
  {
    if k :| 0 <= k < |a| && Covers(a[k], x, y) { assert (a + b)[k] == a[k]; }
    if k :| 0 <= k < |b| && Covers(b[k], x, y) { assert (a + b)[|a| + k] == b[k]; }
  }

  lemma PaintedHides(image: array2<Color>, before: seq<seq<Color>>, rects: seq<Rect>, regions: seq<Region>,
                     scrollX: real, scrollY: real, fullPage: bool)
    requires |before| == image.Length0 && forall y :: 0 <= y < |before| ==> |before[y]| == image.Length1
    requires PaintedOver(image, before, rects) && FiniteRegions(regions)
    requires var kept := Kept(regions, scrollX, scrollY, image.Length1, image.Length0, fullPage);
      kept.Masked? && Rects(kept.value, image.Length1, image.Length0).Masked?
      && forall x, y :: Covered(Rects(kept.value, image.Length1, image.Length0).value, x, y) ==> Covered(rects, x, y)
    ensures Hides(image, regions, scrollX, scrollY, fullPage)
  {
    forall i, x, y | 0 <= i < |regions| && 0 <= y < image.Length0 && 0 <= x < image.Length1
      && Shows(regions[i], scrollX, scrollY, fullPage, x, y)
      ensures image[y, x] == BLACK
    {
      EveryRegionCovered(regions, scrollX, scrollY, image.Length1, image.Length0, fullPage, i, x, y);
    }
  }

  /** The regions a capture masks: protected ones always, and embedded frames or only the restricted
      ones, as the operator's policy says; the first list that cannot be bounded blocks the capture. */
  function Chosen(protectedRegions: Result<seq<Region>>, frames: Result<seq<Region>>, restricted: Result<seq<Region>>,
                  maskFrames: bool): Result<seq<Region>> {
    if protectedRegions.Blocked? then protectedRegions
    else if frames.Blocked? then frames
    else if restricted.Blocked? then restricted
    else Masked(protectedRegions.value + if maskFrames then frames.value else restricted.value)
  }

  /** From the page's regions to the masked image. An image without regions is left as it is,
      whatever its size. */
  method MaskCapture(image: array2<Color>, protectedRegions: seq<Region>, frames: seq<Region>, restricted: seq<Region>,
                     maskFrames: bool, scrollX: real, scrollY: real, width: nat, height: nat, fullPage: bool)
    returns (result: Result<seq<Rect>>)
    requires FiniteRegions(protectedRegions) && FiniteRegions(frames) && FiniteRegions(restricted)
    modifies image
    ensures var chosen := Chosen(Kept(protectedRegions, scrollX, scrollY, width, height, fullPage),
                                 Kept(frames, scrollX, scrollY, width, height, fullPage),
                                 Kept(restricted, scrollX, scrollY, width, height, fullPage), maskFrames);
      result.Masked? <==>
        chosen.Masked?
        && (chosen.value == []
            || (|chosen.value| <= MAX_REGIONS && image.Length1 == width && image.Length0 == height
                && forall i :: 0 <= i < |chosen.value| ==> chosen.value[i].maskSafe && Bounded(chosen.value[i])))
    ensures result.Masked? ==> PaintedOver(image, old(Pixels(image)), result.value)
    ensures result.Masked? && image.Length1 == width && image.Length0 == height ==>
      Hides(image, protectedRegions, scrollX, scrollY, fullPage)
      && Hides(image, if maskFrames then frames else restricted, scrollX, scrollY, fullPage)
  {
    var a := CaptureRegions(protectedRegions, scrollX, scrollY, width, height, fullPage);
    if a.Blocked? { return Blocked(a.reason); }
    var b := CaptureRegions(frames, scrollX, scrollY, width, height, fullPage);
    if b.Blocked? { return Blocked(b.reason); }
    var c := CaptureRegions(restricted, scrollX, scrollY, width, height, fullPage);
    if c.Blocked? { return Blocked(c.reason); }
    var others := if maskFrames then b.value else c.value;
    ghost var before := Pixels(image);
    if a.value + others == [] {
      result := Masked([]);
    } else {
      result := MaskFrames(image, a.value + others, width, height);
    }
    if result.Masked? && image.Length1 == width && image.Length0 == height {
      RectsJoin(a.value, others, width, height);
      forall x, y
        ensures Covered(Rects(a.value, width, height).value, x, y) || Covered(Rects(others, width, height).value, x, y) ==>
          Covered(result.value, x, y)
      {
        CoveredJoin(Rects(a.value, width, height).value, Rects(others, width, height).value, x, y);
      }
      PaintedHides(image, before, result.value, protectedRegions, scrollX, scrollY, fullPage);
      PaintedHides(image, before, result.value, if maskFrames then frames else restricted, scrollX, scrollY, fullPage);
    }
  }

  // ---- coordinate actions --------------------------------------------------------------------------

  /** A region given in any of the three lists, with finite bounds. */
  datatype Area = Area(x: real, y: real, width: real, height: real)

  predicate Contains(a: Area, x: real, y: real) {
    a.x <= x < a.x + a.width && a.y <= y < a.y + a.height
  }

  function AreaOf(rect: Rect): Area { Area(rect.x as real, rect.y as real, rect.width as real, rect.height as real) }

  function AreasOf(rects: seq<Rect>): (r: seq<Area>)
    ensures |r| == |rects| && forall k :: 0 <= k < |rects| ==> r[k] == AreaOf(rects[k])
  {
    seq(|rects|, k requires 0 <= k < |rects| => AreaOf(rects[k]))
  }

  datatype Answer = Accepted | InvalidCoordinates | SensitiveScreen

  /** The check of a coordinate action against the last screenshot and the page. */
  method CheckCoordinates(x: real, y: real, width: nat, height: nat, masked: seq<Rect>, protectedAreas: seq<Area>,
                          restricted: seq<Area>) returns (answer: Answer)
    ensures answer.InvalidCoordinates? <==> x >= width as real || y >= height as real
    ensures answer.Accepted? <==>
      x < width as real && y < height as real
      && forall a :: a in AreasOf(masked) + protectedAreas + restricted ==> !Contains(a, x, y)
  {
    if x >= width as real || y >= height as real { return InvalidCoordinates; }
    var areas := AreasOf(masked) + protectedAreas + restricted;
    var i := 0;
    while i < |areas|
      invariant 0 <= i <= |areas| && forall k :: 0 <= k < i ==> !Contains(areas[k], x, y)
    {
      if Contains(areas[i], x, y) {
        assert areas[i] in areas;
        return SensitiveScreen;
      }
      i := i + 1;
    }
    answer := Accepted;
  }

  /** Whatever was painted over cannot be acted on: an accepted point lies in no painted pixel. */
  lemma PaintedIsRefused(rects: seq<Rect>, x: real, y: real)
    requires Covered(rects, x.Floor, y.Floor)
    ensures exists a :: a in AreasOf(rects) && Contains(a, x, y)
  {
    var k :| 0 <= k < |rects| && Covers(rects[k], x.Floor, y.Floor);
    FloorCeil(x);
    FloorCeil(y);
    var a := AreasOf(rects)[k];
    assert a in AreasOf(rects) && Contains(a, x, y);
  }
}
