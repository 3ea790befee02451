# Image splicing: layout and placement model

A Dafny model of the compositing core of an in-browser image splicing tool.
The tool takes an ordered list of image files and a configuration. It places
the images row by row on a grid of equal cells and encodes the canvas.

- `Geometry` (`geometry.dfy`) holds the arithmetic of `createSplicedImage`.
  The cell size is the per-axis maximum over all images when `autoSize` is on.
  Otherwise it is the first image's size, or 0×0 when there are no images.
  The canvas is `columns*cellW + (columns-1)*spacing` by
  `rows*cellH + (rows-1)*spacing`. Image `k` sits in row `k / columns`,
  column `k % columns`, centred by `(cell - size)/2`. This module also holds
  the lemmas about cells: no outer margin, cells inside the canvas, distinct
  cells disjoint, and centred images inside their cell.
- `Compositor` (`compositor.dfy`) models the whole `createSplicedImage` call.
  Decoding is all-or-nothing. A missing canvas context and a failed encoding
  are failures. The result is a list of draw commands `(index, x, y)` plus the
  canvas size, the requested MIME type `image/<format>` and the encoder
  quality `quality/100`. `DrawLoop` is the nested row/column loop as written,
  including its early `break`. It is proved to produce exactly the row-major
  reference list `Placements`.
- `ImageTypes` (`image_types.dfy`) holds the MIME type table, the extension
  map, the display list and `IsImageFile`.
- `SplicingTool` (`splicing_tool.dfy`) is the screen's state machine over
  `{layout, rows, columns, spacing, autoSize, images}`. Its transitions are
  choosing a layout, adding selected files, removing an image by index,
  building the export configuration and requesting the composite.
- `Media` and `Wrappers` hold the value types: sizes, files, `Option` and
  `Result`.

Centring offsets are `real`: an odd difference gives a half-pixel position,
which is what the browser receives.

Facts about the program that a reader of its interface might not expect:
- With `autoSize` off, images are not resized. The options panel's hint says
  every image is adjusted to the first image's size
  (src/components/OptionsPanel.tsx:59-62). But the drawing call passes no
  target size (src/lib/image-processing.ts:77), so each image is drawn at its
  native size, centred on a cell the size of the first image. Offsets can be
  negative, and a larger image spills out of its cell. See
  `Compositor.UniformSizeDoesNotStretch` and `Geometry.OversizedImageSpills`.
- The single layout exports a 1×1 grid, so only the first image is drawn
  (`SplicingTool.SingleLayoutDrawsOnlyFirst`).
- The row layout exports one column with one row per image. The cell has the
  largest size with `autoSize`, and the first image's size without it.
- The compositor has no special case for an empty list. The cell is 0×0 and
  the canvas is `(columns-1)*spacing` by `(rows-1)*spacing`
  (`Compositor.EmptyInputHasOnlyGaps`). When that canvas has a zero side, the
  encoder returns no blob and the request fails
  (`Compositor.EmptyInputWithoutGapsFails`). The screen never sends an empty
  list.

## Model

| member | source | states |
|---|---|---|
| `ImageTypes.IsImageFileExactly` | src/lib/image-types.ts:35-37 | `IsImageFile` accepts a file exactly when its MIME type is one of the eight listed strings |
| `ImageTypes.NearMissesRejected` | src/lib/image-types.ts:36 | the match is exact and case-sensitive: "image/jpg", "IMAGE/PNG", "image/svg" and "" are rejected |
| `ImageTypes.ExtensionKeysAreSupportedFormats` | src/lib/image-types.ts:2-22 | every supported MIME type has an extension entry and the map has no other key |
| `ImageTypes.DisplayFollowsExtensions` | src/lib/image-types.ts:13-33 | the display list names are the extensions of the supported types, in the same order, all checked |
| `ImageTypes.IrregularExtensions` | src/lib/image-types.ts:14-21 | image/jpeg maps to jpg, image/svg+xml to svg, image/x-icon to ico |
| `Geometry.Max` | src/lib/image-processing.ts:30-38 | the running maximum from 0 bounds every element, equals one of them, and is 0 for an empty list |
| `Geometry.CellSize` | src/lib/image-processing.ts:33-45 | with autoSize every image fits the cell and each cell dimension is attained by some image; without it the cell is the first image's size; with no images it is 0×0 |
| `Geometry.RowMajorDivMod` | src/lib/image-processing.ts:64-71 | the cell visited at row r, column c is slot r*columns+c, whose row is k / columns and column k % columns |
| `Geometry.CanvasIsTight` | src/lib/image-processing.ts:49-50 | for the canvas extent `CanvasSize`, the first cell starts at the origin and the last row and column end exactly at the canvas edges: no leading or trailing margin |
| `Geometry.CellWithinCanvas` | src/lib/image-processing.ts:49-71 | with non-negative spacing each of the rows*columns cells lies inside the canvas |
| `Geometry.CellsDisjoint` | src/lib/image-processing.ts:70-71 | with non-negative spacing the cells of two different slots do not overlap |
| `Geometry.CentreOffset` | src/lib/image-processing.ts:74-75 | the offset leaves equal margins on both sides of the image, and is non-negative exactly when the image is no larger than the cell |
| `Geometry.DrawRect` | src/lib/image-processing.ts:70-77 | the image keeps its native size and its centre coincides with the centre of its row-major cell |
| `Geometry.CentredImageWithinCell` | src/lib/image-processing.ts:73-77 | an image no larger than its cell has non-negative centring offsets and is drawn inside the cell |
| `Geometry.OversizedImageSpills` | src/lib/image-processing.ts:73-77 | an image wider than its cell gets a negative offset and is not inside its cell |
| `Geometry.AutoSizeDrawsWithinCanvas` | src/lib/image-processing.ts:33-77 | with autoSize and non-negative spacing every drawn image lies inside the canvas |
| `Compositor.DecodeAll` | src/lib/image-processing.ts:18-27 | decoding succeeds exactly when every file decodes, and then yields each file's size in order |
| `Compositor.Placements` | src/lib/image-processing.ts:64-80 | the reference drawing pass has min(n, rows*columns) draws and draw k is of image k |
| `Compositor.DrawLoop` | src/lib/image-processing.ts:64-80 | the nested loop with its early exit issues min(n, rows*columns) draws, image k centred in row k / columns, column k % columns |
| `Compositor.MimeType` | src/lib/image-processing.ts:92 | the requested type is "image/" followed by the format, which can be read back from it |
| `Compositor.EncoderQuality` | src/lib/image-processing.ts:93 | the encoder quality times 100 is the configured quality, and a percentage maps into [0, 1] |
| `Compositor.Compose` | src/lib/image-processing.ts:11-95 | a decode failure, a missing context, and a failed encoding or a canvas with a zero side each fail the request exactly in their case; on success the canvas size, draw list, MIME type and quality are as above |
| `Compositor.EmptyInputHasOnlyGaps` | src/lib/image-processing.ts:39-53 | with no images, at least two rows and columns and positive spacing, the canvas is (columns-1)*spacing by (rows-1)*spacing and nothing is drawn |
| `Compositor.EmptyInputWithoutGapsFails` | src/lib/image-processing.ts:39-89 | with no images and one row, one column or no spacing the canvas has a zero side and no blob is produced |
| `Compositor.DrawnIndicesAreThePrefix` | src/lib/image-processing.ts:64-80 | image k is drawn exactly when k < n and k < rows*columns |
| `Compositor.DrawnCellsDisjoint` | src/lib/image-processing.ts:64-71 | two draws are of different images and, with non-negative spacing, in non-overlapping cells |
| `Compositor.AutoSizeKeepsImagesOnCanvas` | src/lib/image-processing.ts:33-77 | with autoSize every drawn rectangle lies within the composite's width and height |
| `Compositor.UniformSizeDoesNotStretch` | src/lib/image-processing.ts:39-77 | without autoSize a 120-wide second image in a 100-wide cell is drawn at x = 90, at native size |
| `SplicingTool.ImageFiles` | src/components/ImageSplicingTool.tsx:44 | the kept files are exactly the input files that pass the MIME check, and all of them when all pass |
| `SplicingTool.ImageFilesAppend` | src/components/ImageSplicingTool.tsx:44 | filtering a concatenation is the concatenation of the filtered parts, so order is kept |
| `SplicingTool.ImageFilesIdempotent` | src/components/ImageSplicingTool.tsx:44 | filtering an already filtered list changes nothing |
| `SplicingTool.LayoutChange` | src/components/ImageSplicingTool.tsx:66-81 | single gives 1×1, row gives one column and one row per current image, grid resets to 2×2; nothing else changes |
| `SplicingTool.ImagesSelected` | src/components/ImageSplicingTool.tsx:43-60 | the image files are appended after the existing images, which keep their order; with none the state is unchanged and an invalid-files notice is raised |
| `SplicingTool.DropIndex` | src/components/ImageSplicingTool.tsx:63 | keeping every position but i drops exactly element i when i is in range and nothing otherwise |
| `SplicingTool.RemoveImage` | src/components/ImageSplicingTool.tsx:62-64 | a valid index removes exactly that image, keeps the others in order and the rest of the state; any other index leaves the state unchanged |
| `SplicingTool.ExportConfig` | src/components/ImageSplicingTool.tsx:84-103 | no request for an empty list; otherwise rows = image count and one column in row layout, the stored rows and columns elsewhere, format png, quality 90 |
| `SplicingTool.CreateSplicedImage` | src/components/ImageSplicingTool.tsx:83-122 | nothing is composed exactly when there are no images; a created composite is requested as image/png at quality 0.9 |
| `SplicingTool.TransitionsKeepImagesSupported` | src/components/ImageSplicingTool.tsx:14-64 | the initial state and every transition keep only files that pass the MIME check |
| `SplicingTool.RowLayoutDrawsEveryImage` | src/components/ImageSplicingTool.tsx:97-98 | in row layout every image is drawn, whatever rows were stored |
| `SplicingTool.SingleLayoutDrawsOnlyFirst` | src/components/ImageSplicingTool.tsx:97-98 | with a 1×1 single layout only image 0 is drawn |
| `SplicingTool.ChooseSingleThenExport` | src/components/ImageSplicingTool.tsx:70-72 | choosing single and exporting draws exactly one image |
| `SplicingTool.AddOneThenRemoveRestores` | src/components/ImageSplicingTool.tsx:55-64 | adding one image file and removing it at its new index restores the state |

## Left out

- Image decoding (`new Image()`, object URLs, `Promise.all`) is platform I/O. A file carries the size the decoder would yield, or `None` when decoding fails.
- The canvas context, `clearRect`, pixel drawing and `toBlob` are platform calls. Drawing is a list of draw commands. A missing context and a missing blob are the two booleans of `Platform`. No bytes are produced.
- A canvas with a zero side never yields a blob. Other encoder failures, such as an oversized bitmap, are covered only by the `blobProduced` boolean.
- The composite records the requested MIME type. A browser that cannot encode that type hands back a PNG blob instead, which is not modelled.
- Canvas dimensions are reported as computed. How the browser treats a negative or fractional `canvas.width` is not modelled.
- `downloadImage` manipulates the DOM and is not modelled.
- The window paste listener applies the same filter-and-append as `ImagesSelected` but raises no notice when nothing passes. It is event plumbing and is not modelled separately.
- Toast texts, `isProcessing`, `console.error` and the JSX are presentation and are not modelled. Notices are reduced to `Notice` and `Outcome`.
- The direct setters handed to the options panel (`setRows`, `setColumns`, `setSpacing`, `setAutoSize`) are plain field assignments and have no operation of their own.
- JavaScript numbers are modelled as integers: rows and columns as `nat`, spacing and quality as `int`. NaN and fractional values are not modelled.
- SplicingTool.CreateSplicedImage: its contract names only the empty case, the format and the quality. The canvas geometry of the result is stated by `Compositor.Compose`, which it calls.
