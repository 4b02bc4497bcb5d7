/** `TextureAtlas2D::new`: the shelf packer that places every texture of a
    layer in one atlas image of at most 8192 x 8192 texels.

    The packer is modelled as written. Its cursor `currentWidth` grows by the
    cell width for every texture and is never reset, so once one texture has
    started a new row every later texture starts yet another row; the texture
    starting a row is placed at the height of the row before it. `Step` and
    `Walk` follow the loop; `WalkClosedForm` gives the placements in closed
    form, and `GridPlacement` is the placement the packer evidently intends. */
module Atlas {
  import opened Common
  import opened Texture

  const MAX_WIDTH: nat := 8192
  const MAX_HEIGHT: nat := 8192

  /** Pixel offset of a texture inside the combined image. */
  datatype Offset = Offset(x: nat, y: nat)

  /** What the packer records for one texture: its cell (stored in the
      texture) and its pixel offset (used when compositing). */
  datatype Placement = Placement(cell: Cell, offset: Offset)

  /** The four loop counters of the packer. */
  datatype Cursor = Cursor(currentWidth: nat, currentHeight: nat, row: nat, column: nat)

  datatype Walked = Walked(cursor: Cursor, placements: seq<Placement>)

  /** What a built atlas holds besides its bind group: its size and the
      sampler and upload layout used for its GPU texture. */
  datatype AtlasInfo = AtlasInfo(dimensions: Size, sampler: SamplerDescriptor, layout: ImageDataLayout)

  function WidthCount(textureSize: Size): nat
    requires textureSize.width > 0
  {
    MAX_WIDTH / textureSize.width
  }

  function HeightCount(textureSize: Size): nat
    requires textureSize.height > 0
  {
    MAX_HEIGHT / textureSize.height
  }

  /** The number of cells of the full-size grid. */
  function Capacity(textureSize: Size): nat
    requires textureSize.width > 0 && textureSize.height > 0
  {
    WidthCount(textureSize) * HeightCount(textureSize)
  }

  /** One iteration of the placement loop. */
  function Step(c: Cursor, textureSize: Size): (Cursor, Placement)
  {
    var newRow := c.currentWidth + textureSize.width > MAX_WIDTH;
    var row := if newRow then c.row + 1 else c.row;
    var column := if newRow then 0 else c.column;
    var placed := Placement(Cell(column, row), Offset(c.currentWidth, c.currentHeight));
    var height := if newRow then c.currentHeight + textureSize.height else c.currentHeight;
    (Cursor(c.currentWidth + textureSize.width, height, row, column + 1), placed)
  }

  /** The counters and the placements after the loop has handled `n` textures. */
  function Walk(n: nat, textureSize: Size): (w: Walked)
    ensures |w.placements| == n
  {
    if n == 0 then Walked(Cursor(0, 0, 0, 0), [])
    else
      var before := Walk(n - 1, textureSize);
      var (c, placed) := Step(before.cursor, textureSize);
      Walked(c, before.placements + [placed])
  }

  /** Index of the first image that could not be opened, or the count. */
  function FirstUndecodable(images: seq<Decoded>): (d: nat)
    ensures d <= |images|
    ensures forall j :: 0 <= j < d ==> images[j].Image?
    ensures d < |images| ==> images[d].OpenError?
  {
    if images == [] || images[0].OpenError? then 0
    else 1 + FirstUndecodable(images[1..])
  }

  /** The combined image size: as many rows as the cursor reached, and either
      the cursor width or the widest multiple of the column count. */
  function Extent(n: nat, c: Cursor, textureSize: Size): Size
    requires textureSize.width > 0 && WidthCount(textureSize) > 0
  {
    var widthCount := WidthCount(textureSize);
    var totalWidth := if widthCount > n then c.currentWidth else MAX_WIDTH - MAX_WIDTH % widthCount;
    Size(totalWidth, textureSize.height + textureSize.height * c.row)
  }

  /** `copy_from` succeeds when the native image lies inside the atlas. */
  predicate Fits(p: Placement, image: Decoded, extent: Size)
  {
    image.Image? && p.offset.x + image.width <= extent.width && p.offset.y + image.height <= extent.height
  }

  predicate AllFit(placements: seq<Placement>, images: seq<Decoded>, extent: Size)
    requires |placements| == |images|
  {
    forall k :: 0 <= k < |placements| ==> Fits(placements[k], images[k], extent)
  }

  /** The result of `TextureAtlas2D::new` for the given opened images. */
  function Pack(images: seq<Decoded>, textureSize: Size, pixelArt: bool): Outcome<AtlasInfo>
  {
    var n := |images|;
    if textureSize.width == 0 || textureSize.height == 0 then Panic(DivideByZero)
    else if Capacity(textureSize) < n then Err(NotEnoughSpace)
    else
      var d := FirstUndecodable(images);
      if d < n then Err(ImageError(images[d].reason))
      // the total-width formula takes `MAX_WIDTH % width_count` whenever
      // `width_count <= n`, in particular when `width_count` is 0
      else if WidthCount(textureSize) == 0 then Panic(RemainderByZero)
      else
        var walked := Walk(n, textureSize);
        var extent := Extent(n, walked.cursor, textureSize);
        if !AllFit(walked.placements, images, extent) then Err(TextureTooSmall)
        else
          ExtentWidthBound(n, textureSize);
          Ok(AtlasInfo(extent, SamplerFor(pixelArt), UploadLayout(extent)))
  }

  /** How many textures the loop handles before returning: none when the
      size check fails, otherwise up to the first image that cannot be opened. */
  function Processed(images: seq<Decoded>, textureSize: Size): nat
  {
    if textureSize.width == 0 || textureSize.height == 0 || Capacity(textureSize) < |images| then 0
    else FirstUndecodable(images)
  }

  /** One pass of the placement loop for an opened image: the texture gets
      the cell size and its cell, and the counters advance. */
  method PlaceOne(texture: WebTexture2D, c: Cursor, textureSize: Size) returns (next: Cursor, offset: Offset)
    modifies texture
    ensures next == Step(c, textureSize).0 && offset == Step(c, textureSize).1.offset
    ensures texture.width == textureSize.width && texture.height == textureSize.height
    ensures texture.index == Some(Step(c, textureSize).1.cell)
  {
    var currentWidth, currentHeight, row, column := c.currentWidth, c.currentHeight, c.row, c.column;
    texture.SetDimensions(textureSize.width, textureSize.height);

    var potWidth := currentWidth + textureSize.width;
    var newRow := false;
    if potWidth > MAX_WIDTH {
      row := row + 1;
      column := 0;
      newRow := true;
    }
    texture.SetIndex(Cell(column, row));
    offset := Offset(currentWidth, currentHeight);

    currentWidth := currentWidth + textureSize.width;
    column := column + 1;
    if newRow {
      currentHeight := currentHeight + textureSize.height;
    }
    next := Cursor(currentWidth, currentHeight, row, column);
  }

  /** The placement loop of `TextureAtlas2D::new`: it opens the images in
      order, gives every texture the cell size and its cell, and records
      its pixel offset, stopping at the first image that cannot be opened. */
  method PlaceTextures(textures: seq<WebTexture2D>, images: seq<Decoded>, textureSize: Size)
    returns (placed: nat, cursor: Cursor, dimensions: seq<Offset>)
    requires |images| == |textures|
    requires forall i, j :: 0 <= i < j < |textures| ==> textures[i] != textures[j]
    modifies textures
    ensures placed == FirstUndecodable(images)
    ensures cursor == Walk(placed, textureSize).cursor && |dimensions| == placed
    ensures forall j :: 0 <= j < placed ==>
              dimensions[j] == Walk(placed, textureSize).placements[j].offset &&
              textures[j].width == textureSize.width && textures[j].height == textureSize.height &&
              textures[j].index == Some(Walk(placed, textureSize).placements[j].cell)
    ensures forall j :: placed <= j < |textures| ==>
              textures[j].width == old(textures[j].width) && textures[j].height == old(textures[j].height) &&
              textures[j].index == old(textures[j].index)
  {
    cursor := Cursor(0, 0, 0, 0);
    dimensions := [];
    ghost var walked := Walk(0, textureSize);
    var i := 0;
    while i < |textures|
      invariant 0 <= i <= |textures|
      invariant walked == Walk(i, textureSize) && walked.cursor == cursor
      invariant |dimensions| == i
      invariant forall j :: 0 <= j < i ==> images[j].Image?
      invariant forall j :: 0 <= j < i ==> dimensions[j] == walked.placements[j].offset
      invariant forall j :: 0 <= j < i ==>
                  textures[j].width == textureSize.width && textures[j].height == textureSize.height &&
                  textures[j].index == Some(walked.placements[j].cell)
      invariant forall j :: i <= j < |textures| ==>
                  textures[j].width == old(textures[j].width) && textures[j].height == old(textures[j].height) &&
                  textures[j].index == old(textures[j].index)
    {
      if images[i].OpenError? {
        return i, cursor, dimensions;
      }
      ghost var placement := Step(cursor, textureSize).1;
      assert forall j :: 0 <= j < |textures| && j != i ==> textures[j] != textures[i];
      var offset;
      cursor, offset := PlaceOne(textures[i], cursor, textureSize);
      dimensions := dimensions + [offset];
      walked := Walked(cursor, walked.placements + [placement]);
      i := i + 1;
    }
    placed := i;
  }

  /** The compositing loop: every image is copied into the combined image at
      its recorded offset, and the first one that does not fit aborts. */
  method Composite(dimensions: seq<Offset>, images: seq<Decoded>, extent: Size) returns (fits: bool)
    requires |dimensions| == |images|
    requires forall j :: 0 <= j < |images| ==> images[j].Image?
    ensures fits <==> forall j :: 0 <= j < |images| ==>
                        dimensions[j].x + images[j].width <= extent.width &&
                        dimensions[j].y + images[j].height <= extent.height
  {
    var k := 0;
    while k < |images|
      invariant 0 <= k <= |images|
      invariant forall j :: 0 <= j < k ==>
                  dimensions[j].x + images[j].width <= extent.width &&
                  dimensions[j].y + images[j].height <= extent.height
    {
      if dimensions[k].x + images[k].width > extent.width || dimensions[k].y + images[k].height > extent.height {
        return false;
      }
      k := k + 1;
    }
    return true;
  }

  /** `TextureAtlas2D::new`. Each `images[i]` is what opening the file of
      `textures[i]` yields; the textures are updated in place. */
  method New(textures: seq<WebTexture2D>, images: seq<Decoded>, textureSize: Size, pixelArt: bool)
    returns (r: Outcome<AtlasInfo>)
    requires |images| == |textures|
    requires forall i, j :: 0 <= i < j < |textures| ==> textures[i] != textures[j]
    modifies textures
    ensures r == Pack(images, textureSize, pixelArt)
    ensures var m := Processed(images, textureSize);
            forall j :: 0 <= j < m ==>
              textures[j].width == textureSize.width && textures[j].height == textureSize.height &&
              textures[j].index == Some(Walk(m, textureSize).placements[j].cell)
    ensures var m := Processed(images, textureSize);
            forall j :: m <= j < |textures| ==>
              textures[j].width == old(textures[j].width) && textures[j].height == old(textures[j].height) &&
              textures[j].index == old(textures[j].index)
  {
    var n := |textures|;
    if textureSize.width == 0 || textureSize.height == 0 {
      return Panic(DivideByZero);
    }
    var widthCount := MAX_WIDTH / textureSize.width;
    var heightCount := MAX_HEIGHT / textureSize.height;
    if widthCount * heightCount < n {
      return Err(NotEnoughSpace);
    }

    var placed, cursor, dimensions := PlaceTextures(textures, images, textureSize);
    assert placed == Processed(images, textureSize);
    if placed < n {
      return Err(ImageError(images[placed].reason));
    }

    var totalHeight := textureSize.height + textureSize.height * cursor.row;
    if widthCount == 0 {
      return Panic(RemainderByZero);
    }
    var totalWidth;
    if widthCount > n {
      totalWidth := cursor.currentWidth;
    } else {
      totalWidth := MAX_WIDTH - MAX_WIDTH % widthCount;
    }
    var extent := Size(totalWidth, totalHeight);
    assert extent == Extent(n, Walk(n, textureSize).cursor, textureSize);

    var fits := Composite(dimensions, images, extent);
    assert fits <==> AllFit(Walk(n, textureSize).placements, images, extent);
    if !fits {
      return Err(TextureTooSmall);
    }
    ExtentWidthBound(n, textureSize);
    r := Ok(AtlasInfo(extent, SamplerFor(pixelArt), UploadLayout(extent)));
  }

  // ---------------------------------------------------------------------
  // Arithmetic helpers

  lemma MulMonotone(a: nat, b: nat, c: nat)
    requires a <= b
    ensures a * c <= b * c
  {
  }

  lemma MulCancel(x: nat, y: nat, c: nat)
    requires x * c < y * c
    ensures x < y
  {
    if x >= y {
      MulMonotone(y, x, c);
    }
  }

  lemma DivUnique(x: nat, d: nat, q: nat, r: nat)
    requires d > 0 && x == q * d + r && r < d
    ensures x / d == q
  {
    var q', r' := x / d, x % d;
    assert x == q' * d + r';
    assert (q + 1) * d == q * d + d && (q' + 1) * d == q' * d + d;
    MulCancel(q', q + 1, d);
    MulCancel(q, q' + 1, d);
  }

  lemma DivPlusOne(a: nat, d: nat)
    requires d > 0
    ensures (a + d) / d == a / d + 1
  {
    var q, r := a / d, a % d;
    assert a + d == (q + 1) * d + r;
    DivUnique(a + d, d, q + 1, r);
  }

  lemma DivMonotone(a: nat, b: nat, d: nat)
    requires d > 0 && a <= b
    ensures a / d <= b / d
  {
    assert (a / d) * d <= a;
    assert b < (b / d) * d + d == (b / d + 1) * d;
    MulCancel(a / d, b / d + 1, d);
  }

  /** k cells of size s fit in `limit` exactly when k is at most limit / s. */
  lemma FitsCount(k: nat, s: nat, limit: nat)
    requires s > 0
    ensures k * s <= limit <==> k <= limit / s
  {
    var q, rest := limit / s, limit % s;
    assert limit == q * s + rest && rest < s;
    if k <= q {
      MulMonotone(k, q, s);
    } else {
      MulMonotone(q + 1, k, s);
      assert (q + 1) * s == q * s + s;
    }
  }

  /** limit / s cells of size s fit in `limit`. */
  lemma CountFits(s: nat, limit: nat)
    requires s > 0
    ensures (limit / s) * s <= limit
  {
    assert limit == (limit / s) * s + limit % s;
  }

  /** With the size check passed, n cells span at most 8192 * 8192 texels
      along either axis. */
  lemma CellsSpanAtMost(n: nat, textureSize: Size)
    requires 0 < textureSize.width && 0 < textureSize.height
    requires n <= Capacity(textureSize)
    ensures n * textureSize.width <= MAX_WIDTH * MAX_HEIGHT
    ensures n * textureSize.height <= MAX_WIDTH * MAX_HEIGHT
  {
    var w, h := textureSize.width, textureSize.height;
    var widthCount, heightCount := WidthCount(textureSize), HeightCount(textureSize);
    CountFits(w, MAX_WIDTH);
    CountFits(h, MAX_HEIGHT);
    assert widthCount <= MAX_WIDTH && heightCount <= MAX_HEIGHT;
    ProductWithinSquare(n, w, widthCount, heightCount, MAX_WIDTH);
    assert widthCount * heightCount == heightCount * widthCount;
    ProductWithinSquare(n, h, heightCount, widthCount, MAX_HEIGHT);
  }

  /** n items of size s, with n at most count * other, count * s and other
      both at most `limit`: together they measure at most limit * limit. */
  lemma ProductWithinSquare(n: nat, s: nat, count: nat, other: nat, limit: nat)
    requires count * s <= limit && n <= count * other && other <= limit
    ensures n * s <= limit * limit
  {
    MulMonotone(n, count * other, s);
    assert count * other * s == (count * s) * other;
    MulMonotone(count * s, limit, other);
    assert limit * other == other * limit;
    MulMonotone(other, limit, limit);
  }

  // ---------------------------------------------------------------------
  // The loop in closed form

  /** Number of textures that started a row among the first n. */
  function RowBreaks(n: nat, textureSize: Size): nat
    requires textureSize.width > 0
  {
    if n > WidthCount(textureSize) then n - WidthCount(textureSize) else 0
  }

  function ClosedCursor(n: nat, textureSize: Size): Cursor
    requires textureSize.width > 0
  {
    var breaks := RowBreaks(n, textureSize);
    Cursor(n * textureSize.width, breaks * textureSize.height, breaks,
           if n <= WidthCount(textureSize) then n else 1)
  }

  /** Textures before `width_count` fill row 0 left to right; every later one
      starts a row of its own at column 0, at the x offset the never-reset
      width counter has reached and at the height of the previous row. */
  function ClosedPlacement(k: nat, textureSize: Size): Placement
    requires textureSize.width > 0
  {
    var widthCount := WidthCount(textureSize);
    if k < widthCount then Placement(Cell(k, 0), Offset(k * textureSize.width, 0))
    else Placement(Cell(0, k - widthCount + 1),
                   Offset(k * textureSize.width, (k - widthCount) * textureSize.height))
  }

  /** A texture starts a new row exactly when the cell no longer fits beside
      the width counter, i.e. when its position is at least `width_count`. */
  lemma RowBreakIffPastWidthCount(k: nat, textureSize: Size)
    requires textureSize.width > 0
    ensures (k * textureSize.width + textureSize.width > MAX_WIDTH) <==> k >= WidthCount(textureSize)
  {
    FitsCount(k + 1, textureSize.width, MAX_WIDTH);
    assert (k + 1) * textureSize.width == k * textureSize.width + textureSize.width;
  }

  /** One iteration of the loop, in closed form. */
  lemma ClosedStep(k: nat, textureSize: Size)
    requires textureSize.width > 0
    ensures Step(ClosedCursor(k, textureSize), textureSize) ==
            (ClosedCursor(k + 1, textureSize), ClosedPlacement(k, textureSize))
  {
    var w, h := textureSize.width, textureSize.height;
    var widthCount := WidthCount(textureSize);
    RowBreakIffPastWidthCount(k, textureSize);
    assert (k + 1) * w == k * w + w;
    if k >= widthCount {
      assert (k + 1 - widthCount) * h == (k - widthCount) * h + h;
    }
  }

  lemma {:induction false} WalkCursorClosedForm(n: nat, textureSize: Size)
    requires textureSize.width > 0
    ensures Walk(n, textureSize).cursor == ClosedCursor(n, textureSize)
  {
    if n > 0 {
      WalkCursorClosedForm(n - 1, textureSize);
      ClosedStep(n - 1, textureSize);
    }
  }

  lemma {:induction false} WalkClosedForm(n: nat, textureSize: Size)
    requires textureSize.width > 0
    ensures Walk(n, textureSize).cursor == ClosedCursor(n, textureSize)
    ensures forall k :: 0 <= k < n ==> Walk(n, textureSize).placements[k] == ClosedPlacement(k, textureSize)
  {
    if n > 0 {
      WalkClosedForm(n - 1, textureSize);
      ClosedStep(n - 1, textureSize);
    }
  }

  /** Fewer textures than `width_count`: texture i is cell [i, 0] at (i*w, 0),
      and the atlas is n*w wide and one cell high. */
  lemma SingleRow(images: seq<Decoded>, textureSize: Size, pixelArt: bool)
    requires textureSize.width > 0 && textureSize.height > 0
    requires |images| < WidthCount(textureSize)
    ensures forall k :: 0 <= k < |images| ==>
              Walk(|images|, textureSize).placements[k] ==
              Placement(Cell(k, 0), Offset(k * textureSize.width, 0))
    ensures Extent(|images|, Walk(|images|, textureSize).cursor, textureSize) ==
            Size(|images| * textureSize.width, textureSize.height)
  {
    WalkClosedForm(|images|, textureSize);
  }

  lemma ExtentWidthBound(n: nat, textureSize: Size)
    requires textureSize.width > 0 && WidthCount(textureSize) > 0
    ensures Extent(n, Walk(n, textureSize).cursor, textureSize).width <= MAX_WIDTH
  {
    WalkClosedForm(n, textureSize);
    if WidthCount(textureSize) > n {
      FitsCount(n, textureSize.width, MAX_WIDTH);
    }
  }

  /** The size check is the only source of `NotEnoughSpace`, and it fires
      exactly when the grid has fewer cells than there are textures. */
  lemma CapacityCheck(images: seq<Decoded>, textureSize: Size, pixelArt: bool)
    requires textureSize.width > 0 && textureSize.height > 0
    ensures Pack(images, textureSize, pixelArt) == Err(NotEnoughSpace) <==>
            (MAX_WIDTH / textureSize.width) * (MAX_HEIGHT / textureSize.height) < |images|
  {
  }

  /** k + 1 cells of size s fit in n cells when k < n. */
  lemma NextCellWithin(k: nat, n: nat, s: nat)
    requires k < n
    ensures k * s + s <= n * s
  {
    MulMonotone(k + 1, n, s);
    assert (k + 1) * s == k * s + s;
  }

  /** The first n textures reach at most n * w in width and n * h in height. */
  lemma CursorWithin(k: nat, n: nat, textureSize: Size)
    requires textureSize.width > 0 && k < n
    ensures var c := Walk(k, textureSize).cursor;
            c.currentWidth + textureSize.width <= n * textureSize.width &&
            c.currentHeight + textureSize.height <= n * textureSize.height
  {
    WalkCursorClosedForm(k, textureSize);
    NextCellWithin(k, n, textureSize.width);
    NextCellWithin(RowBreaks(k, textureSize), n, textureSize.height);
  }

  /** With the size check passed, no counter of the loop and no total leaves
      the 32-bit range: n cells span at most 8192 * 8192 texels either way. */
  lemma NoU32Overflow(n: nat, textureSize: Size)
    requires 0 < textureSize.width && 0 < textureSize.height
    requires IsU32(textureSize.width) && IsU32(textureSize.height)
    requires n <= Capacity(textureSize)
    ensures forall k :: 0 <= k < n ==>
              var c := Walk(k, textureSize).cursor;
              IsU32(c.currentWidth + textureSize.width) && IsU32(c.currentHeight + textureSize.height)
    ensures var c := Walk(n, textureSize).cursor;
            IsU32(textureSize.height * c.row) && IsU32(textureSize.height + textureSize.height * c.row)
  {
    var w, h := textureSize.width, textureSize.height;
    if n > 0 {
      CellsSpanAtMost(n, textureSize);
      forall k | 0 <= k < n
        ensures var c := Walk(k, textureSize).cursor;
                IsU32(c.currentWidth + w) && IsU32(c.currentHeight + h)
      {
        CursorWithin(k, n, textureSize);
      }
      // a texture exists, so a column exists and at most n - 1 rows were started
      assert WidthCount(textureSize) >= 1;
      WalkCursorClosedForm(n, textureSize);
      var row := RowBreaks(n, textureSize);
      NextCellWithin(row, n, h);
      assert h * row == row * h;
    }
  }

  /** Compositing fails as soon as one texture does not fit. */
  lemma OneMisfitRejects(images: seq<Decoded>, textureSize: Size, pixelArt: bool, k: nat)
    requires textureSize.width > 0 && textureSize.height > 0 && WidthCount(textureSize) > 0
    requires |images| <= Capacity(textureSize) && FirstUndecodable(images) == |images|
    requires k < |images|
    requires var walked := Walk(|images|, textureSize);
             !Fits(walked.placements[k], images[k], Extent(|images|, walked.cursor, textureSize))
    ensures Pack(images, textureSize, pixelArt) == Err(TextureTooSmall)
  {
  }

  /** The texture after the first row break lies past the 8192 limit. */
  lemma SecondBreakPastLimit(n: nat, textureSize: Size)
    requires textureSize.width > 0 && n >= WidthCount(textureSize) + 2
    ensures Walk(n, textureSize).placements[WidthCount(textureSize) + 1].offset.x > MAX_WIDTH
  {
    var widthCount := WidthCount(textureSize);
    WalkClosedForm(n, textureSize);
    RowBreakIffPastWidthCount(widthCount, textureSize);
    assert (widthCount + 1) * textureSize.width == widthCount * textureSize.width + textureSize.width;
  }

  /** Once a second texture would start a row, compositing always fails:
      that texture's x offset is past 8192, and the atlas is never wider. */
  lemma SecondRowNeverComposites(images: seq<Decoded>, textureSize: Size, pixelArt: bool)
    requires textureSize.width > 0 && textureSize.height > 0
    requires |images| <= Capacity(textureSize)
    requires FirstUndecodable(images) == |images|
    requires |images| >= WidthCount(textureSize) + 2
    ensures Pack(images, textureSize, pixelArt) == Err(TextureTooSmall)
  {
    var n := |images|;
    var widthCount := WidthCount(textureSize);
    assert widthCount > 0;
    var walked := Walk(n, textureSize);
    var extent := Extent(n, walked.cursor, textureSize);
    SecondBreakPastLimit(n, textureSize);
    ExtentWidthBound(n, textureSize);
    assert walked.placements[widthCount + 1].offset.x > extent.width;
    OneMisfitRejects(images, textureSize, pixelArt, widthCount + 1);
  }

  /** What a successful build implies about its inputs, and the size it
      reports. */
  lemma PackOk(images: seq<Decoded>, textureSize: Size, pixelArt: bool)
    requires Pack(images, textureSize, pixelArt).Ok?
    ensures textureSize.width > 0 && textureSize.height > 0 && WidthCount(textureSize) > 0
    ensures |images| <= Capacity(textureSize)
    ensures Pack(images, textureSize, pixelArt).value.dimensions ==
            Extent(|images|, Walk(|images|, textureSize).cursor, textureSize)
  {
  }

  /** With at most one row break and the size check passed, the atlas is at
      most 8192 high: a second row exists only when the cell is at most half
      the maximum height. */
  lemma ExtentHeightBound(n: nat, textureSize: Size)
    requires textureSize.width > 0 && textureSize.height > 0 && WidthCount(textureSize) > 0
    requires 0 < n <= Capacity(textureSize) && n < WidthCount(textureSize) + 2
    ensures Extent(n, Walk(n, textureSize).cursor, textureSize).height <= MAX_HEIGHT
  {
    var h := textureSize.height;
    var widthCount, heightCount := WidthCount(textureSize), HeightCount(textureSize);
    WalkCursorClosedForm(n, textureSize);
    var row := RowBreaks(n, textureSize);
    assert row <= 1;
    FitsCount(heightCount, h, MAX_HEIGHT);
    // at least row + 1 rows of cells are needed to hold the textures
    if heightCount < row + 1 {
      MulMonotone(heightCount, 1, widthCount);
    }
    MulMonotone(row + 1, heightCount, h);
    assert (row + 1) * h == h + h * row;
  }

  /** A successful atlas of at least one texture never exceeds the 8192 x 8192
      limit: success needs at most one row break. */
  lemma AtlasWithinLimits(images: seq<Decoded>, textureSize: Size, pixelArt: bool)
    requires |images| > 0 && Pack(images, textureSize, pixelArt).Ok?
    ensures Pack(images, textureSize, pixelArt).value.dimensions.width <= MAX_WIDTH
    ensures Pack(images, textureSize, pixelArt).value.dimensions.height <= MAX_HEIGHT
  {
    var n := |images|;
    PackOk(images, textureSize, pixelArt);
    if n >= WidthCount(textureSize) + 2 {
      SecondRowNeverComposites(images, textureSize, pixelArt);
    }
    ExtentWidthBound(n, textureSize);
    ExtentHeightBound(n, textureSize);
  }

  // ---------------------------------------------------------------------
  // The intended grid placement

  /** Texture k in column k % width_count of row k / width_count, at the
      pixel offset of that cell. */
  function GridPlacement(k: nat, textureSize: Size): Placement
    requires textureSize.width > 0 && WidthCount(textureSize) > 0
  {
    var widthCount := WidthCount(textureSize);
    var column, row := k % widthCount, k / widthCount;
    Placement(Cell(column, row), Offset(column * textureSize.width, row * textureSize.height))
  }

  /** The smallest atlas covering n grid cells: the used columns by the used rows. */
  function GridExtent(n: nat, textureSize: Size): Size
    requires textureSize.width > 0 && WidthCount(textureSize) > 0
  {
    var widthCount := WidthCount(textureSize);
    var columns := if n < widthCount then n else widthCount;
    var rows := (n + widthCount - 1) / widthCount;
    Size(columns * textureSize.width, rows * textureSize.height)
  }

  /** A cell at position `index` of an axis where `used` cells are in use
      ends inside them, and `count` cells of size s fit in `limit`. */
  lemma AxisFits(index: nat, used: nat, count: nat, s: nat, limit: nat)
    requires index < used <= count && count * s <= limit
    ensures index * s + s <= used * s <= limit
  {
    MulMonotone(index + 1, used, s);
    assert (index + 1) * s == index * s + s;
    MulMonotone(used, count, s);
  }

  /** The row of grid cell k is among the rows in use, and those are at
      most `height_count` when the size check passes. */
  lemma GridRowsInUse(n: nat, k: nat, widthCount: nat, heightCount: nat)
    requires widthCount > 0 && k < n <= widthCount * heightCount
    ensures k / widthCount < (n + widthCount - 1) / widthCount <= heightCount
  {
    DivPlusOne(n - 1, widthCount);
    DivMonotone(k, n - 1, widthCount);
    var full := heightCount * widthCount - 1;
    assert full == (heightCount - 1) * widthCount + (widthCount - 1);
    DivUnique(full, widthCount, heightCount - 1, widthCount - 1);
    DivMonotone(n - 1, full, widthCount);
  }

  lemma GridColumnFits(k: nat, n: nat, widthCount: nat, w: nat)
    requires widthCount > 0 && k < n && widthCount * w <= MAX_WIDTH
    ensures (k % widthCount) * w + w <= (if n < widthCount then n else widthCount) * w <= MAX_WIDTH
  {
    AxisFits(k % widthCount, if n < widthCount then n else widthCount, widthCount, w, MAX_WIDTH);
  }

  lemma GridRowFits(k: nat, n: nat, widthCount: nat, heightCount: nat, h: nat)
    requires widthCount > 0 && k < n <= widthCount * heightCount && heightCount * h <= MAX_HEIGHT
    ensures (k / widthCount) * h + h <= ((n + widthCount - 1) / widthCount) * h <= MAX_HEIGHT
  {
    GridRowsInUse(n, k, widthCount, heightCount);
    AxisFits(k / widthCount, (n + widthCount - 1) / widthCount, heightCount, h, MAX_HEIGHT);
  }

  /** Every grid cell lies inside the grid extent, which itself lies inside
      the 8192 x 8192 limit whenever the size check passes. */
  lemma GridPlacementFits(n: nat, k: nat, textureSize: Size)
    requires textureSize.width > 0 && textureSize.height > 0
    requires k < n <= Capacity(textureSize)
    ensures WidthCount(textureSize) > 0
    ensures var p, e := GridPlacement(k, textureSize), GridExtent(n, textureSize);
            p.offset.x + textureSize.width <= e.width <= MAX_WIDTH &&
            p.offset.y + textureSize.height <= e.height <= MAX_HEIGHT
  {
    var widthCount, heightCount := WidthCount(textureSize), HeightCount(textureSize);
    assert widthCount > 0;
    CountFits(textureSize.width, MAX_WIDTH);
    CountFits(textureSize.height, MAX_HEIGHT);
    GridColumnFits(k, n, widthCount, textureSize.width);
    GridRowFits(k, n, widthCount, heightCount, textureSize.height);
  }

  /** Distinct textures get distinct cells, and their rectangles in the atlas
      do not overlap. */
  lemma GridPlacementsDisjoint(j: nat, k: nat, textureSize: Size)
    requires textureSize.width > 0 && textureSize.height > 0 && WidthCount(textureSize) > 0
    requires j != k
    ensures GridPlacement(j, textureSize).cell != GridPlacement(k, textureSize).cell
    ensures var a, b := GridPlacement(j, textureSize).offset, GridPlacement(k, textureSize).offset;
            a.x + textureSize.width <= b.x || b.x + textureSize.width <= a.x ||
            a.y + textureSize.height <= b.y || b.y + textureSize.height <= a.y
  {
    var w, h, widthCount := textureSize.width, textureSize.height, WidthCount(textureSize);
    assert j == (j / widthCount) * widthCount + j % widthCount;
    assert k == (k / widthCount) * widthCount + k % widthCount;
    var cj, ck := j % widthCount, k % widthCount;
    var rj, rk := j / widthCount, k / widthCount;
    if cj < ck {
      MulMonotone(cj + 1, ck, w);
      assert (cj + 1) * w == cj * w + w;
    } else if ck < cj {
      MulMonotone(ck + 1, cj, w);
      assert (ck + 1) * w == ck * w + w;
    } else if rj < rk {
      MulMonotone(rj + 1, rk, h);
      assert (rj + 1) * h == rj * h + h;
    } else {
      assert rk < rj;
      MulMonotone(rk + 1, rj, h);
      assert (rk + 1) * h == rk * h + h;
    }
  }

  /** Three 4096 x 4096 textures in 4096 x 4096 cells: the grid has four cells
      and the grid placement fits them in an 8192 x 8192 atlas, but the packer
      as written puts the third one at x = 8192 and reports that the atlas is
      too small. */
  lemma ThreeHalfWidthTilesRejected(pixelArt: bool)
    ensures var cell := Size(4096, 4096);
            var images := [Image(4096, 4096), Image(4096, 4096), Image(4096, 4096)];
            Capacity(cell) == 4 &&
            Walk(3, cell).placements[2] == Placement(Cell(0, 1), Offset(8192, 0)) &&
            Pack(images, cell, pixelArt) == Err(TextureTooSmall) &&
            GridPlacement(2, cell) == Placement(Cell(0, 1), Offset(0, 4096)) &&
            GridExtent(3, cell) == Size(8192, 8192)
  {
    var cell := Size(4096, 4096);
    var images := [Image(4096, 4096), Image(4096, 4096), Image(4096, 4096)];
    assert WidthCount(cell) == 2 && HeightCount(cell) == 2;
    assert FirstUndecodable(images[2..]) == 1;
    assert FirstUndecodable(images[1..]) == 2;
    assert FirstUndecodable(images) == 3;
    var walked := Walk(3, cell);
    assert Walk(1, cell).cursor == Cursor(4096, 0, 0, 1);
    assert Walk(2, cell).cursor == Cursor(8192, 0, 0, 2);
    assert walked.placements[2] == Placement(Cell(0, 1), Offset(8192, 0));
    assert !Fits(walked.placements[2], images[2], Extent(3, walked.cursor, cell));
  }
}
