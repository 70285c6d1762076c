/** Cutting one tall picture into banner rows that line up again in the channel tree.

    Decoding, scaling and compositing belong to the image library: the scaled picture is given
    as a function of its coordinates, and `over` lays a pixel on a background. */
module Slicer {
  import opened Wrappers
  import opened ForestPlan

  const TARGET_WIDTH := 500
  const TARGET_HEIGHT := 44
  const CHANNEL_DEPTH_OFFSET_PX := 11
  const MAX_WALLPAPER_ROWS := 300
  const MAX_SOURCE_DIMENSION_PX := 20000
  const MAX_SOURCE_PIXELS := 25000000
  const MAX_OUTPUT_PIXELS := 8000000
  const MAX_SAFE_INTEGER := 9007199254740991
  const MAX_OFFSET := 20000

  datatype Pixel = Pixel(r: nat, g: nat, b: nat, alpha: nat)
  datatype Image = Image(width: nat, height: nat, at: (int, int) -> Pixel)

  datatype WallpaperRow = WallpaperRow(depth: nat, isSpacer: bool)
  datatype Options = Options(xOffset: int, yOffset: int, background: Pixel, coverFitMode: bool)
  datatype Slice = Slice(row: WallpaperRow, image: Image)
  /** What decoding the header gives. */
  datatype Metadata = Metadata(accepted: bool, width: nat, height: nat, orientation: Option<int>)
  datatype SliceError = InvalidImage | ImageTooLarge

  // ------------------------------------------------------------ the image library

  function Extract(img: Image, left: int, top: int, width: int, height: int): Image
    requires 0 <= left && 0 <= top && 0 < width && 0 < height
    requires left + width <= img.width && top + height <= img.height
  {
    Image(width, height, (x, y) => img.at(left + x, top + y))
  }

  function Canvas(width: nat, height: nat, background: Pixel): Image {
    Image(width, height, (x, y) => background)
  }

  /** The library refuses a piece that does not fit on the canvas. */
  function Composite(canvas: Image, piece: Image, left: int, top: int, over: (Pixel, Pixel) -> Pixel): Image
    requires 0 <= left && 0 <= top
    requires left + piece.width <= canvas.width && top + piece.height <= canvas.height
  {
    Image(canvas.width, canvas.height, (x, y) =>
      if left <= x < left + piece.width && top <= y < top + piece.height
      then over(piece.at(x - left, y - top), canvas.at(x, y))
      else canvas.at(x, y))
  }

  // ------------------------------------------------------------ the plan

  function AlternatingRow(i: nat, nested: bool): WallpaperRow {
    WallpaperRow(if nested && i % 2 == 1 then 1 else 0, i % 2 == 1)
  }

  method BuildAlternatingRowPlan(maxRows: nat, nested: bool) returns (rows: seq<WallpaperRow>)
    ensures |rows| == maxRows
    ensures forall i :: 0 <= i < maxRows ==> rows[i] == AlternatingRow(i, nested)
  {
    rows := [];
    for i := 0 to maxRows
      invariant |rows| == i
      invariant forall k :: 0 <= k < i ==> rows[k] == AlternatingRow(k, nested)
    {
      var isSpacer := i % 2 == 1;
      rows := rows + [WallpaperRow(if nested && isSpacer then 1 else 0, isSpacer)];
    }
  }

  function Depths(rows: seq<WallpaperRow>): seq<nat> {
    seq(|rows|, i requires 0 <= i < |rows| => rows[i].depth)
  }

  /** Every start of such a plan is a forest: art rows are roots, and a nested spacer hangs
      under the art row right before it. */
  lemma PlanIsForest(rows: seq<WallpaperRow>, nested: bool, p: nat)
    requires forall i :: 0 <= i < |rows| ==> rows[i] == AlternatingRow(i, nested)
    requires p < |rows|
    ensures Stepwise(Depths(rows))
    ensures ParentOf(Depths(rows), p) == if nested && p % 2 == 1 then Under(p - 1) else Root
  {
    if nested && p % 2 == 1 {
      assert Depths(rows)[p - 1] == 0;
      assert Above(Depths(rows), p, 1) == Some(p - 1);
    }
  }

  // ------------------------------------------------------------ the window of a row

  /** Row `i` shows the scaled picture from this corner on. */
  function WindowX(row: WallpaperRow, xOffset: int): int {
    row.depth * CHANNEL_DEPTH_OFFSET_PX - xOffset
  }

  function WindowY(i: nat, yOffset: int): int {
    i * TARGET_HEIGHT + yOffset
  }

  /** A slice shows the picture's pixel at the shifted position, over the background, and plain
      background where the picture does not reach. */
  function WindowPixel(img: Image, x: int, y: int, background: Pixel, over: (Pixel, Pixel) -> Pixel): Pixel {
    if 0 <= x < img.width && 0 <= y < img.height then over(img.at(x, y), background) else background
  }

  ghost predicate ShowsWindow(slice: Image, img: Image, x: int, y: int, background: Pixel, over: (Pixel, Pixel) -> Pixel) {
    && slice.width == TARGET_WIDTH && slice.height == TARGET_HEIGHT
    && forall px, py :: 0 <= px < TARGET_WIDTH && 0 <= py < TARGET_HEIGHT ==>
         slice.at(px, py) == WindowPixel(img, x + px, y + py, background, over)
  }

  /** The whole result, from the uncropped picture. */
  ghost predicate Sliced(slices: seq<Slice>, img: Image, rows: seq<WallpaperRow>, o: Options, over: (Pixel, Pixel) -> Pixel) {
    && |slices| == RowCount(img.height, |rows|)
    && forall i :: 0 <= i < |slices| ==>
         slices[i].row == rows[i]
         && ShowsWindow(slices[i].image, img, WindowX(rows[i], o.xOffset), WindowY(i, o.yOffset), o.background, over)
  }

  /** As many whole rows as the picture holds and the plan allows. */
  function RowCount(height: nat, planned: nat): (n: nat)
    ensures n <= planned && n * TARGET_HEIGHT <= height
    ensures n < planned ==> height < (n + 1) * TARGET_HEIGHT
  {
    if height / TARGET_HEIGHT < planned then height / TARGET_HEIGHT else planned
  }

  // ------------------------------------------------------------ the crop

  function Max(a: int, b: int): int {
    if a < b then b else a
  }

  function Min(a: int, b: int): int {
    if a < b then a else b
  }

  /** Only this much of the scaled picture is decoded. */
  function CropHeight(height: nat, planned: nat, yOffset: int): nat
  {
    Min(height, Max(1, planned * TARGET_HEIGHT + Max(0, yOffset)))
  }

  function Cropped(img: Image, planned: nat, yOffset: int): Image {
    Image(img.width, CropHeight(img.height, planned, yOffset), img.at)
  }

  /** The early crop changes nothing: every pixel of every row is the same with and without it, */
  lemma CropChangesNothing(img: Image, planned: nat, yOffset: int, i: nat, x: int, py: nat,
                           background: Pixel, over: (Pixel, Pixel) -> Pixel)
    requires i < planned && py < TARGET_HEIGHT
    ensures WindowPixel(Cropped(img, planned, yOffset), x, WindowY(i, yOffset) + py, background, over)
         == WindowPixel(img, x, WindowY(i, yOffset) + py, background, over)
  {
    assert (i + 1) * TARGET_HEIGHT <= planned * TARGET_HEIGHT;
  }

  /** and as many rows are rendered. */
  lemma CropKeepsRows(height: nat, planned: nat, yOffset: int)
    ensures RowCount(CropHeight(height, planned, yOffset), planned) == RowCount(height, planned)
  {
  }

  // ------------------------------------------------------------ sizes and limits

  function MaxDepth(rows: seq<WallpaperRow>): (d: nat)
    ensures forall i :: 0 <= i < |rows| ==> rows[i].depth <= d
    ensures d == 0 || exists i :: 0 <= i < |rows| && rows[i].depth == d
  {
    if rows == [] then 0
    else
      var rest := MaxDepth(rows[..|rows| - 1]);
      Max(rest, rows[|rows| - 1].depth)
  }

  function TargetWidth(rows: seq<WallpaperRow>, coverFitMode: bool): nat {
    if coverFitMode then TARGET_WIDTH + MaxDepth(rows) * CHANNEL_DEPTH_OFFSET_PX else TARGET_WIDTH
  }

  predicate Rotated(m: Metadata) {
    m.orientation.Some? && 5 <= m.orientation.value <= 8
  }

  /** Rounded half up, as `Math.round` does. */
  function OutputHeight(m: Metadata, targetWidth: nat): nat
    requires m.width > 0 && m.height > 0
  {
    var (w, h) := if Rotated(m) then (m.height, m.width) else (m.width, m.height);
    (2 * h * targetWidth + w) / (2 * w)
  }

  /** What is refused before any pixel is decoded. */
  function Check(metadata: Option<Metadata>, rows: seq<WallpaperRow>, o: Options): Option<SliceError> {
    if metadata.None? || !metadata.value.accepted then Some(InvalidImage)
    else
      var m := metadata.value;
      var targetWidth := TargetWidth(rows, o.coverFitMode);
      if m.width == 0 || m.height == 0 then Some(InvalidImage)
      else if m.width > MAX_SOURCE_DIMENSION_PX || m.height > MAX_SOURCE_DIMENSION_PX
              || m.width * m.height > MAX_SOURCE_PIXELS then Some(ImageTooLarge)
      else
        var outputHeight := OutputHeight(m, targetWidth);
        if targetWidth > MAX_SAFE_INTEGER || outputHeight > MAX_SAFE_INTEGER
           || targetWidth * outputHeight > MAX_OUTPUT_PIXELS || outputHeight < 1 then Some(ImageTooLarge)
        else if |rows| > MAX_WALLPAPER_ROWS || Max(o.xOffset, -o.xOffset) > MAX_OFFSET
                || Max(o.yOffset, -o.yOffset) > MAX_OFFSET then Some(ImageTooLarge)
        else None
  }

  /** The scaled picture. */
  function Scaled(m: Metadata, rows: seq<WallpaperRow>, o: Options, pixels: (int, int) -> Pixel): Image
    requires m.width > 0 && m.height > 0
  {
    var targetWidth := TargetWidth(rows, o.coverFitMode);
    Image(targetWidth, OutputHeight(m, targetWidth), pixels)
  }

  // ------------------------------------------------------------ in plain numbers

  /** The width to scale to: 500 pixels, with cover fit 11 more for each level of the deepest row. */
  predicate FitsWidth(rows: seq<WallpaperRow>, coverFitMode: bool, w: nat) {
    if coverFitMode
    then (w == 500 || exists i :: 0 <= i < |rows| && w == 500 + 11 * rows[i].depth)
         && forall i :: 0 <= i < |rows| ==> 500 <= 500 + 11 * rows[i].depth <= w
    else w == 500
  }

  /** The height that goes with it: the oriented picture's proportions, rounded half up. */
  predicate FitsHeight(m: Metadata, w: nat, h: nat) {
    if m.orientation.Some? && m.orientation.value in {5, 6, 7, 8}
    then 2 * (m.width * w - h * m.height) < m.height && 2 * (h * m.height - m.width * w) <= m.height
    else 2 * (m.height * w - h * m.width) < m.width && 2 * (h * m.width - m.height * w) <= m.width
  }

  /** What is accepted: a picture of at most 20,000 by 20,000 and 25 million pixels that scales to
      at least one line and at most 8 million pixels, 300 rows and offsets of 20,000. */
  predicate Accepted(m: Metadata, rows: seq<WallpaperRow>, o: Options, w: nat, h: nat) {
    && 0 < m.width <= 20000 && 0 < m.height <= 20000 && m.width * m.height <= 25000000
    && h >= 1 && w * h <= 8000000 && |rows| <= 300 && -20000 <= o.xOffset <= 20000 && -20000 <= o.yOffset <= 20000
  }

  lemma WidthIs(rows: seq<WallpaperRow>, coverFitMode: bool, w: nat)
    ensures FitsWidth(rows, coverFitMode, w) <==> w == TargetWidth(rows, coverFitMode)
  {
    var d := MaxDepth(rows);
    assert TargetWidth(rows, coverFitMode) == if coverFitMode then 500 + 11 * d else 500;
    if coverFitMode && FitsWidth(rows, coverFitMode, w) {
      if d > 0 {
        var i :| 0 <= i < |rows| && rows[i].depth == d;
        assert 500 + 11 * rows[i].depth <= w;
      }
      if w != 500 {
        var i :| 0 <= i < |rows| && w == 500 + 11 * rows[i].depth;
        assert rows[i].depth <= d;
      }
    }
  }

  lemma HeightIs(m: Metadata, w: nat, h: nat)
    requires m.width > 0 && m.height > 0
    ensures FitsHeight(m, w, h) <==> h == OutputHeight(m, w)
  {
    var (sw, sh) := if Rotated(m) then (m.height, m.width) else (m.width, m.height);
    RoundedIs(sw, sh * w, h);
    assert 2 * sh * w == 2 * (sh * w);
  }

  lemma RoundedIs(a: nat, b: nat, h: nat)
    requires a > 0
    ensures h == (2 * b + a) / (2 * a) <==> 2 * (b - h * a) < a && 2 * (h * a - b) <= a
  {
    var q, r := (2 * b + a) / (2 * a), (2 * b + a) % (2 * a);
    assert 2 * b + a == q * (2 * a) + r && q * (2 * a) == 2 * (q * a);
    if 2 * (b - h * a) < a && 2 * (h * a - b) <= a {
      assert (q - h) * a == q * a - h * a;
      if q != h {
        Multiple(q - h, a);
        assert false;
      }
    }
  }

  /** A multiple of `a` other than zero is not that small. */
  lemma Multiple(k: int, a: nat)
    requires k != 0
    ensures k * a >= a || k * a <= 0 - a
  {
    if k >= 1 {
      assert (k - 1) * a >= 0 && (k - 1) * a == k * a - a;
    } else {
      assert (-k - 1) * a >= 0 && (-k - 1) * a == -(k * a) - a;
    }
  }

  ghost predicate Acceptable(metadata: Option<Metadata>, rows: seq<WallpaperRow>, o: Options) {
    && metadata.Some? && metadata.value.accepted
    && exists w: nat, h: nat :: FitsWidth(rows, o.coverFitMode, w) && FitsHeight(metadata.value, w, h)
                                && Accepted(metadata.value, rows, o, w, h)
  }

  /** Which pictures are refused, and why. */
  lemma CheckIff(metadata: Option<Metadata>, rows: seq<WallpaperRow>, o: Options)
    ensures Check(metadata, rows, o) == Some(InvalidImage) <==>
              metadata.None? || !metadata.value.accepted || metadata.value.width == 0 || metadata.value.height == 0
    ensures Check(metadata, rows, o) == None <==> Acceptable(metadata, rows, o)
  {
    if metadata.Some? && metadata.value.width > 0 && metadata.value.height > 0 {
      var w, h := SizesOf(metadata.value, rows, o.coverFitMode);
      CheckNone(metadata.value, rows, o);
    }
  }

  /** There is one width and one height. */
  lemma SizesOf(m: Metadata, rows: seq<WallpaperRow>, coverFitMode: bool) returns (w: nat, h: nat)
    requires m.width > 0 && m.height > 0
    ensures w == TargetWidth(rows, coverFitMode) && h == OutputHeight(m, w)
    ensures FitsWidth(rows, coverFitMode, w) && FitsHeight(m, w, h)
    ensures forall w', h' :: FitsWidth(rows, coverFitMode, w') && FitsHeight(m, w', h') ==> w' == w && h' == h
  {
    w := TargetWidth(rows, coverFitMode);
    h := OutputHeight(m, w);
    WidthIs(rows, coverFitMode, w);
    HeightIs(m, w, h);
    forall w', h' | FitsWidth(rows, coverFitMode, w') && FitsHeight(m, w', h') ensures w' == w && h' == h {
      WidthIs(rows, coverFitMode, w');
      HeightIs(m, w', h');
    }
  }

  lemma CheckNone(m: Metadata, rows: seq<WallpaperRow>, o: Options)
    requires m.width > 0 && m.height > 0
    ensures var w := TargetWidth(rows, o.coverFitMode);
      Check(Some(m), rows, o) == None <==> m.accepted && Accepted(m, rows, o, w, OutputHeight(m, w))
  {
    var w := TargetWidth(rows, o.coverFitMode);
    var h := OutputHeight(m, w);
    Product(w, h);
  }

  /** A product bounds its factors. */
  lemma Product(w: nat, h: nat)
    requires w >= 1
    ensures h >= 1 ==> w * h >= w && w * h >= h
  {
  }

  /** The slices of a picture scaled to `w` by `h`: as many rows as whole 44-pixel strips fit, each
      500 by 44, moved 11 pixels for each level and by the offsets; background elsewhere. */
  ghost predicate Rendered(w: nat, h: nat, rows: seq<WallpaperRow>, o: Options, pixels: (int, int) -> Pixel,
                           over: (Pixel, Pixel) -> Pixel, slices: seq<Slice>) {
    && |slices| <= |rows| && 44 * |slices| <= h && (|slices| < |rows| ==> h < 44 * (|slices| + 1))
    && forall i :: 0 <= i < |slices| ==>
         && slices[i].row == rows[i] && slices[i].image.width == 500 && slices[i].image.height == 44
         && forall px, py :: 0 <= px < 500 && 0 <= py < 44 ==>
              slices[i].image.at(px, py)
              == PixelAt(w, h, 11 * rows[i].depth - o.xOffset + px, 44 * i + o.yOffset + py, pixels, o.background, over)
  }

  function PixelAt(w: nat, h: nat, x: int, y: int, pixels: (int, int) -> Pixel, background: Pixel,
                   over: (Pixel, Pixel) -> Pixel): Pixel {
    if 0 <= x < w && 0 <= y < h then over(pixels(x, y), background) else background
  }

  lemma RenderedIs(m: Metadata, rows: seq<WallpaperRow>, o: Options, pixels: (int, int) -> Pixel,
                   over: (Pixel, Pixel) -> Pixel, slices: seq<Slice>, w: nat, h: nat)
    requires m.width > 0 && m.height > 0 && FitsWidth(rows, o.coverFitMode, w) && FitsHeight(m, w, h)
    requires Sliced(slices, Scaled(m, rows, o, pixels), rows, o, over)
    ensures Rendered(w, h, rows, o, pixels, over, slices)
  {
    WidthIs(rows, o.coverFitMode, w);
    HeightIs(m, w, h);
    var img := Scaled(m, rows, o, pixels);
    forall i | 0 <= i < |slices|
      ensures slices[i].row == rows[i] && slices[i].image.width == 500 && slices[i].image.height == 44
      ensures forall px, py :: 0 <= px < 500 && 0 <= py < 44 ==>
                slices[i].image.at(px, py)
                == PixelAt(w, h, 11 * rows[i].depth - o.xOffset + px, 44 * i + o.yOffset + py,
                           pixels, o.background, over)
    {
      assert ShowsWindow(slices[i].image, img, WindowX(rows[i], o.xOffset), WindowY(i, o.yOffset), o.background, over);
    }
  }

  // ------------------------------------------------------------ rendering

  /** `pixels` is the picture scaled to the target width. */
  method RenderWallpaper(metadata: Option<Metadata>, candidateRows: seq<WallpaperRow>, o: Options,
                         pixels: (int, int) -> Pixel, over: (Pixel, Pixel) -> Pixel)
    returns (r: Result<seq<Slice>, SliceError>)
    ensures Check(metadata, candidateRows, o).Some? ==> r == Err(Check(metadata, candidateRows, o).value)
    ensures Check(metadata, candidateRows, o).None? ==>
              && metadata.Some? && metadata.value.width > 0 && metadata.value.height > 0
              && r.Ok? && Sliced(r.value, Scaled(metadata.value, candidateRows, o, pixels), candidateRows, o, over)
    ensures r.Ok? <==> Acceptable(metadata, candidateRows, o)
    ensures forall w, h :: r.Ok? && FitsWidth(candidateRows, o.coverFitMode, w) && FitsHeight(metadata.value, w, h) ==>
              Rendered(w, h, candidateRows, o, pixels, over, r.value)
  {
    CheckIff(metadata, candidateRows, o);
    var refused := Check(metadata, candidateRows, o);
    if refused.Some? {
      return Err(refused.value);
    }
    var img := Scaled(metadata.value, candidateRows, o, pixels);
    var resized := Extract(img, 0, 0, img.width, CropHeight(img.height, |candidateRows|, o.yOffset));
    var count := CountRows(candidateRows, resized.height);
    CropKeepsRows(img.height, |candidateRows|, o.yOffset);

    var slices: seq<Slice> := [];
    var y := 0;
    while |slices| < count
      invariant |slices| <= count && y == |slices| * TARGET_HEIGHT
      invariant forall i :: 0 <= i < |slices| ==>
                  slices[i].row == candidateRows[i]
                  && ShowsWindow(slices[i].image, img, WindowX(candidateRows[i], o.xOffset), WindowY(i, o.yOffset),
                                 o.background, over)
    {
      var row := candidateRows[|slices|];
      var image := RenderRow(resized, WindowX(row, o.xOffset), y + o.yOffset, o.background, over);
      WindowOfCrop(img, resized, |candidateRows|, o.yOffset, |slices|, image, WindowX(row, o.xOffset), o.background, over);
      slices := slices + [Slice(row, image)];
      y := y + TARGET_HEIGHT;
    }
    forall w, h | FitsWidth(candidateRows, o.coverFitMode, w) && FitsHeight(metadata.value, w, h)
      ensures Rendered(w, h, candidateRows, o, pixels, over, slices)
    {
      RenderedIs(metadata.value, candidateRows, o, pixels, over, slices, w, h);
    }
    return Ok(slices);
  }

  lemma WindowOfCrop(img: Image, resized: Image, planned: nat, yOffset: int, i: nat, slice: Image, x: int,
                     background: Pixel, over: (Pixel, Pixel) -> Pixel)
    requires i < planned
    requires resized.width == img.width && resized.height == CropHeight(img.height, planned, yOffset)
    requires forall px, py :: resized.at(px, py) == img.at(px, py)
    requires ShowsWindow(slice, resized, x, WindowY(i, yOffset), background, over)
    ensures ShowsWindow(slice, img, x, WindowY(i, yOffset), background, over)
  {
    forall px, py | 0 <= px < TARGET_WIDTH && 0 <= py < TARGET_HEIGHT
      ensures slice.at(px, py) == WindowPixel(img, x + px, WindowY(i, yOffset) + py, background, over)
    {
      CropChangesNothing(img, planned, yOffset, i, x + px, py, background, over);
    }
  }

  /** The loop that stops at the first row that no longer fits. */
  method CountRows(candidateRows: seq<WallpaperRow>, height: nat) returns (count: nat)
    ensures count == RowCount(height, |candidateRows|)
  {
    count := 0;
    var remainingHeight: int := height;
    while count < |candidateRows|
      invariant count <= |candidateRows|
      invariant remainingHeight == height - count * TARGET_HEIGHT >= 0
    {
      if remainingHeight - TARGET_HEIGHT < 0 {
        break;
      }
      remainingHeight := remainingHeight - TARGET_HEIGHT;
      count := count + 1;
    }
  }

  /** One row: the part of its window inside the picture, laid on the background. */
  method RenderRow(resized: Image, x: int, rowY: int, background: Pixel, over: (Pixel, Pixel) -> Pixel)
    returns (image: Image)
    ensures ShowsWindow(image, resized, x, rowY, background, over)
  {
    var clampedX := Max(0, x);
    var clampedY := Max(0, rowY);
    var clampedRight := Min(x + TARGET_WIDTH, resized.width);
    var clampedBottom := Min(rowY + TARGET_HEIGHT, resized.height);
    var extractWidth := clampedRight - clampedX;
    var extractHeight := clampedBottom - clampedY;
    image := Canvas(TARGET_WIDTH, TARGET_HEIGHT, background);
    if extractWidth > 0 && extractHeight > 0 {
      var extracted := Extract(resized, clampedX, clampedY, extractWidth, extractHeight);
      image := Composite(image, extracted, clampedX - x, clampedY - rowY, over);
    }
  }

  // ------------------------------------------------------------ the wallpaper

  /** With cover fit and no offsets the slices, each moved right by its row's indent and stacked,
      show the picture itself: every pixel of every slice is the picture's pixel at the place
      where it ends up, and no background is left. */
  lemma SlicesTile(m: Metadata, rows: seq<WallpaperRow>, o: Options, pixels: (int, int) -> Pixel,
                   over: (Pixel, Pixel) -> Pixel, slices: seq<Slice>, i: nat, px: nat, py: nat)
    requires m.width > 0 && m.height > 0 && o.coverFitMode && o.xOffset == 0 && o.yOffset == 0
    requires Sliced(slices, Scaled(m, rows, o, pixels), rows, o, over)
    requires i < |slices| && px < TARGET_WIDTH && py < TARGET_HEIGHT
    ensures var img := Scaled(m, rows, o, pixels);
      var x, y := rows[i].depth * CHANNEL_DEPTH_OFFSET_PX + px, i * TARGET_HEIGHT + py;
      && x < img.width && y < img.height
      && slices[i].image.at(px, py) == over(img.at(x, y), o.background)
  {
    var img := Scaled(m, rows, o, pixels);
    assert rows[i].depth * CHANNEL_DEPTH_OFFSET_PX <= MaxDepth(rows) * CHANNEL_DEPTH_OFFSET_PX;
    assert (i + 1) * TARGET_HEIGHT <= |slices| * TARGET_HEIGHT;
    assert slices[i].image.at(px, py)
        == WindowPixel(img, WindowX(rows[i], 0) + px, WindowY(i, 0) + py, o.background, over);
  }

  /** Every line of the picture that a whole row covers is in exactly the slice whose turn it is. */
  lemma LinesCovered(m: Metadata, rows: seq<WallpaperRow>, o: Options, pixels: (int, int) -> Pixel,
                     over: (Pixel, Pixel) -> Pixel, slices: seq<Slice>, y: nat)
    requires m.width > 0 && m.height > 0
    requires Sliced(slices, Scaled(m, rows, o, pixels), rows, o, over)
    ensures y / TARGET_HEIGHT < |slices| <==>
              y / TARGET_HEIGHT < |rows| && (y / TARGET_HEIGHT + 1) * TARGET_HEIGHT <= Scaled(m, rows, o, pixels).height
  {
  }

  /** The scaled height is the proportional one, rounded to the nearest whole number. */
  lemma HeightIsProportional(m: Metadata, targetWidth: nat)
    requires m.width > 0 && m.height > 0
    ensures var (w, h) := if Rotated(m) then (m.height, m.width) else (m.width, m.height);
      -w <= 2 * (h * targetWidth - OutputHeight(m, targetWidth) * w) < w
  {
  }
}
