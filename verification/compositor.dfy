/**
 * `createSplicedImage`: decode every file, pick the cell size, size the canvas,
 * draw the images row by row, and hand the canvas to the encoder. Drawing is
 * recorded as a list of draw commands; nothing is rasterised.
 */
module Compositor {
  import opened Wrappers
  import opened Media
  import opened Geometry

  /** The export settings passed with every request. */
  datatype SplicedImageConfig = SplicedImageConfig(
    rows: nat,
    columns: nat,
    spacing: int,
    format: string,
    quality: int,
    autoSize: bool)

  /** "Draw image `index` at its native size with its top-left corner at (`x`, `y`)." */
  datatype DrawCommand = DrawCommand(index: nat, x: real, y: real)

  /**
   * What the browser platform provides: whether a 2-D drawing context can be
   * obtained, and whether the encoder produces a blob for a canvas with a
   * non-empty bitmap. An empty bitmap never yields a blob (see `Compose`).
   */
  datatype Platform = Platform(contextAvailable: bool, blobProduced: bool)

  datatype ComposeError =
    | DecodeError        // some file could not be decoded
    | NoCanvasContext    // "Could not get canvas context"
    | BlobFailed         // "Failed to create image blob"

  /**
   * The encoded result, described by the canvas it was produced from.
   * `requestedType` is the type asked of the encoder; a browser that cannot
   * encode it may hand back a PNG blob instead.
   */
  datatype Composite = Composite(
    width: int,
    height: int,
    draws: seq<DrawCommand>,
    requestedType: string,
    encoderQuality: real)

  /** All-or-nothing decoding: every file decodes, or the whole request fails. */
  function DecodeAll(files: seq<File>): (r: Option<seq<Size>>)
    ensures r.Some? <==> forall i :: 0 <= i < |files| ==> files[i].decoded.Some?
    ensures r.Some? ==> |r.value| == |files|
    ensures r.Some? ==> forall i :: 0 <= i < |files| ==> r.value[i] == files[i].decoded.value
  {
    if |files| == 0 then Some([])
    else
      var rest := DecodeAll(files[1..]);
      if files[0].decoded.Some? && rest.Some? then Some([files[0].decoded.value] + rest.value)
      else None
  }

  /** The draw command for the `k`-th image, centred in its row-major cell. */
  function Place(k: nat, size: Size, columns: nat, cell: Size, spacing: int): DrawCommand
    requires columns > 0
  {
    var d := DrawRect(k, size, columns, cell, spacing);
    DrawCommand(k, d.x, d.y)
  }

  /**
   * Reference definition of the drawing pass: the first `min(n, rows*columns)`
   * images, image `k` in row `k / columns`, column `k % columns`.
   */
  function Placements(sizes: seq<Size>, rows: nat, columns: nat, cell: Size, spacing: int)
    : (draws: seq<DrawCommand>)
    ensures |draws| == Min(|sizes|, rows * columns)
    ensures forall k :: 0 <= k < |draws| ==> draws[k].index == k
  {
    if columns == 0 then []
    else
      seq(Min(|sizes|, rows * columns),
          k requires 0 <= k < Min(|sizes|, rows * columns) => Place(k, sizes[k], columns, cell, spacing))
  }

  /** The draw for the cell at row `r`, column `c`, computed from the row and column directly. */
  lemma PlaceAtRowColumn(r: nat, c: nat, size: Size, columns: nat, cell: Size, spacing: int)
    requires c < columns
    ensures Place(r * columns + c, size, columns, cell, spacing) ==
      DrawCommand(r * columns + c,
                  (c * (cell.width + spacing)) as real + (cell.width - size.width) as real / 2.0,
                  (r * (cell.height + spacing)) as real + (cell.height - size.height) as real / 2.0)
  {
    RowMajorDivMod(r, c, columns);
  }

  /** A draw list that agrees with `Placements` element by element is `Placements`. */
  lemma PlacementsByElement(draws: seq<DrawCommand>, sizes: seq<Size>, rows: nat, columns: nat,
                            cell: Size, spacing: int)
    requires |draws| == Min(|sizes|, rows * columns)
    requires columns > 0 ==> forall k :: 0 <= k < |draws| ==>
      draws[k] == Place(k, sizes[k], columns, cell, spacing)
    ensures draws == Placements(sizes, rows, columns, cell, spacing)
  {
  }

  /**
   * The drawing pass as written: a row loop around a column loop, one running
   * image index, and an early exit from the column loop once the images run out.
   * It draws exactly the reference placements.
   */
  method DrawLoop(sizes: seq<Size>, rows: nat, columns: nat, cell: Size, spacing: int)
    returns (draws: seq<DrawCommand>)
    ensures |draws| == Min(|sizes|, rows * columns)
    ensures draws == Placements(sizes, rows, columns, cell, spacing)
  {
    draws := [];
    var index := 0;
    ghost var rowStart := 0;  // r * columns, the slot of the row's first cell
    var r := 0;
    while r < rows
      invariant 0 <= r <= rows
      invariant rowStart == r * columns
      invariant index == Min(|sizes|, rowStart)
      invariant |draws| == index
      invariant columns > 0 ==> forall k :: 0 <= k < index ==>
        draws[k] == Place(k, sizes[k], columns, cell, spacing)
    {
      var c := 0;
      while c < columns
        invariant 0 <= c <= columns
        invariant index == Min(|sizes|, rowStart + c)
        invariant |draws| == index
        invariant forall k :: 0 <= k < index ==>
          draws[k] == Place(k, sizes[k], columns, cell, spacing)
      {
        if index >= |sizes| {
          break;
        }
        var size := sizes[index];
        var x := c * (cell.width + spacing);
        var y := r * (cell.height + spacing);
        var imgX := x as real + (cell.width - size.width) as real / 2.0;
        var imgY := y as real + (cell.height - size.height) as real / 2.0;
        PlaceAtRowColumn(r, c, size, columns, cell, spacing);
        draws := draws + [DrawCommand(index, imgX, imgY)];
        index := index + 1;
        c := c + 1;
      }
      rowStart := rowStart + columns;
      r := r + 1;
    }
    PlacementsByElement(draws, sizes, rows, columns, cell, spacing);
  }

  /** The MIME type requested from the encoder. */
  function MimeType(format: string): (m: string)
    ensures |m| == |"image/"| + |format|
    ensures m[..|"image/"|] == "image/" && m[|"image/"|..] == format
  {
    "image/" + format
  }

  /** The encoder quality: the percentage rescaled to the unit interval. */
  function EncoderQuality(quality: int): (q: real)
    ensures q * 100.0 == quality as real
    ensures 0 <= quality <= 100 ==> 0.0 <= q <= 1.0
  {
    quality as real / 100.0
  }

  /**
   * The whole request, failures included. A canvas with a zero width or
   * height has an empty bitmap, for which the encoder hands back no blob.
   */
  function Compose(files: seq<File>, config: SplicedImageConfig, platform: Platform)
    : (r: Result<Composite, ComposeError>)
    ensures r == Failure(DecodeError) <==>
      exists i :: 0 <= i < |files| && files[i].decoded.None?
    ensures r == Failure(NoCanvasContext) <==>
      DecodeAll(files).Some? && !platform.contextAvailable
    ensures r == Failure(BlobFailed) <==>
      DecodeAll(files).Some? && platform.contextAvailable &&
      var cell := CellSize(DecodeAll(files).value, config.autoSize);
      (!platform.blobProduced ||
       config.columns * cell.width + (config.columns - 1) * config.spacing == 0 ||
       config.rows * cell.height + (config.rows - 1) * config.spacing == 0)
    ensures r.Success? ==>
      var sizes := DecodeAll(files).value;
      var cell := CellSize(sizes, config.autoSize);
      && r.value.width == config.columns * cell.width + (config.columns - 1) * config.spacing
      && r.value.height == config.rows * cell.height + (config.rows - 1) * config.spacing
      && |r.value.draws| == Min(|files|, config.rows * config.columns)
      && (config.columns > 0 ==> forall k :: 0 <= k < |r.value.draws| ==>
            r.value.draws[k] == Place(k, sizes[k], config.columns, cell, config.spacing))
      && r.value.width != 0 && r.value.height != 0
      && r.value.requestedType == "image/" + config.format
      && r.value.encoderQuality * 100.0 == config.quality as real
  {
    match DecodeAll(files)
    case None => Failure(DecodeError)
    case Some(sizes) =>
      var cell := CellSize(sizes, config.autoSize);
      var canvas := CanvasSize(config.rows, config.columns, cell, config.spacing);
      if !platform.contextAvailable then Failure(NoCanvasContext)
      else
        var draws := Placements(sizes, config.rows, config.columns, cell, config.spacing);
        if canvas.width == 0 || canvas.height == 0 || !platform.blobProduced then Failure(BlobFailed)
        else Success(Composite(canvas.width, canvas.height, draws,
                               MimeType(config.format), EncoderQuality(config.quality)))
  }

  /**
   * An empty list gets no placeholder: the cell is 0×0 and the canvas is
   * just the gaps between the empty cells.
   */
  lemma EmptyInputHasOnlyGaps(config: SplicedImageConfig)
    requires config.rows >= 2 && config.columns >= 2 && config.spacing > 0
    ensures Compose([], config, Platform(true, true)) == Success(Composite(
      (config.columns - 1) * config.spacing,
      (config.rows - 1) * config.spacing,
      [],
      "image/" + config.format,
      config.quality as real / 100.0))
  {
  }

  /** With no images and no gap along some axis the canvas is empty and encoding fails. */
  lemma EmptyInputWithoutGapsFails(config: SplicedImageConfig, platform: Platform)
    requires platform.contextAvailable
    requires config.rows == 1 || config.columns == 1 || config.spacing == 0
    ensures Compose([], config, platform) == Failure(BlobFailed)
  {
  }

  /** Images from index `rows*columns` on are never drawn; the ones before are drawn once each. */
  lemma DrawnIndicesAreThePrefix(files: seq<File>, config: SplicedImageConfig, platform: Platform,
                                 k: nat)
    requires Compose(files, config, platform).Success?
    ensures (exists j :: 0 <= j < |Compose(files, config, platform).value.draws| &&
               Compose(files, config, platform).value.draws[j].index == k)
        <==> k < |files| && k < config.rows * config.columns
  {
    var draws := Compose(files, config, platform).value.draws;
    if config.columns > 0 {
      if k < |files| && k < config.rows * config.columns {
        assert draws[k].index == k;
      }
    } else {
      assert config.rows * config.columns == 0;
    }
  }

  /** Two different drawn images never land on the same cell (when spacing is not negative). */
  lemma DrawnCellsDisjoint(files: seq<File>, config: SplicedImageConfig, platform: Platform,
                           j1: nat, j2: nat)
    requires Compose(files, config, platform).Success? && config.spacing >= 0
    requires j1 < |Compose(files, config, platform).value.draws|
    requires j2 < |Compose(files, config, platform).value.draws|
    requires j1 != j2
    ensures config.columns > 0
    ensures var sizes := DecodeAll(files).value;
      var cell := CellSize(sizes, config.autoSize);
      var d := Compose(files, config, platform).value.draws;
      d[j1].index != d[j2].index &&
      Disjoint(CellRect(d[j1].index, config.columns, cell, config.spacing),
               CellRect(d[j2].index, config.columns, cell, config.spacing))
  {
    var sizes := DecodeAll(files).value;
    var cell := CellSize(sizes, config.autoSize);
    CellsDisjoint(j1, j2, config.columns, cell, config.spacing);
  }

  /**
   * With `autoSize`, every drawn image lies inside the canvas; with `autoSize`
   * off a larger-than-first image can reach outside its cell.
   */
  lemma AutoSizeKeepsImagesOnCanvas(files: seq<File>, config: SplicedImageConfig,
                                    platform: Platform, j: nat)
    requires config.autoSize && config.spacing >= 0
    requires Compose(files, config, platform).Success?
    requires j < |Compose(files, config, platform).value.draws|
    ensures var c := Compose(files, config, platform).value;
      var w := DecodeAll(files).value[c.draws[j].index].width as real;
      var h := DecodeAll(files).value[c.draws[j].index].height as real;
      0.0 <= c.draws[j].x && c.draws[j].x + w <= c.width as real &&
      0.0 <= c.draws[j].y && c.draws[j].y + h <= c.height as real
  {
    var sizes := DecodeAll(files).value;
    AutoSizeDrawsWithinCanvas(sizes, j, config.rows, config.columns, config.spacing);
  }

  /** The uniform-size mode does not stretch: a wider second image spills out of its cell. */
  lemma UniformSizeDoesNotStretch()
    ensures var files := [File("image/png", Some(Size(100, 50))), File("image/png", Some(Size(120, 50)))];
      var r := Compose(files, SplicedImageConfig(1, 2, 0, "png", 90, false), Platform(true, true));
      r.Success? && r.value.width == 200 && r.value.height == 50 &&
      r.value.draws == [DrawCommand(0, 0.0, 0.0), DrawCommand(1, 90.0, 0.0)]
  {
  }
}
