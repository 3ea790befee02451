/**
 * The layout arithmetic of the compositor: cell size selection, canvas size,
 * row-major cell origins and centred draw positions.
 */
module Geometry {
  import opened Media

  /** A point on the canvas; coordinates of cell origins are whole pixels. */
  datatype Point = Point(x: int, y: int)

  /** A half-open rectangle `[x, x + width) × [y, y + height)`. */
  datatype Rect = Rect(x: real, y: real, width: real, height: real)

  /** Canvas dimensions as computed; the formula can go below zero for odd inputs. */
  datatype Extent = Extent(width: int, height: int)

  function Min(a: int, b: int): int { if a <= b then a else b }

  function Widths(sizes: seq<Size>): (ws: seq<nat>)
    ensures |ws| == |sizes| && forall i :: 0 <= i < |sizes| ==> ws[i] == sizes[i].width
  {
    seq(|sizes|, i requires 0 <= i < |sizes| => sizes[i].width)
  }

  function Heights(sizes: seq<Size>): (hs: seq<nat>)
    ensures |hs| == |sizes| && forall i :: 0 <= i < |sizes| ==> hs[i] == sizes[i].height
  {
    seq(|sizes|, i requires 0 <= i < |sizes| => sizes[i].height)
  }

  /**
   * Running maximum starting from 0, folded left to right: the largest
   * element, or 0 for an empty sequence.
   */
  function Max(xs: seq<nat>): (m: nat)
    ensures forall i :: 0 <= i < |xs| ==> xs[i] <= m
    ensures |xs| == 0 ==> m == 0
    ensures |xs| > 0 ==> exists i :: 0 <= i < |xs| && xs[i] == m
  {
    if |xs| == 0 then 0
    else
      var m := Max(xs[..|xs| - 1]);
      if xs[|xs| - 1] <= m then m else xs[|xs| - 1]
  }

  /**
   * The cell every image is centred in: the per-axis maximum over all images
   * when `autoSize` is on, otherwise the first image's size (0×0 if there is none).
   */
  function CellSize(sizes: seq<Size>, autoSize: bool): (cell: Size)
    ensures autoSize ==> forall i :: 0 <= i < |sizes| ==>
      sizes[i].width <= cell.width && sizes[i].height <= cell.height
    ensures autoSize && |sizes| > 0 ==>
      (exists i :: 0 <= i < |sizes| && sizes[i].width == cell.width) &&
      (exists j :: 0 <= j < |sizes| && sizes[j].height == cell.height)
    ensures !autoSize && |sizes| > 0 ==> cell == sizes[0]
    ensures |sizes| == 0 ==> cell == Size(0, 0)
  {
    if autoSize then
      var ws := Widths(sizes);
      var hs := Heights(sizes);
      var w := Max(ws);
      var h := Max(hs);
      assert |sizes| > 0 ==> exists i :: 0 <= i < |ws| && ws[i] == w;
      assert |sizes| > 0 ==> exists j :: 0 <= j < |hs| && hs[j] == h;
      Size(w, h)
    else if |sizes| > 0 then sizes[0]
    else Size(0, 0)
  }

  /** Columns (rows) of cells separated by `spacing`, with no outer margin. */
  function CanvasSize(rows: nat, columns: nat, cell: Size, spacing: int): Extent
  {
    Extent(columns * cell.width + (columns - 1) * spacing,
           rows * cell.height + (rows - 1) * spacing)
  }

  /** Row and column of the `k`-th cell in row-major order. */
  function RowOf(k: nat, columns: nat): nat
    requires columns > 0
  {
    k / columns
  }

  function ColumnOf(k: nat, columns: nat): nat
    requires columns > 0
  {
    k % columns
  }

  /** Top-left corner of cell (`r`, `c`): each step adds one cell and one gap. */
  function Origin(r: nat, c: nat, cell: Size, spacing: int): Point
  {
    Point(c * (cell.width + spacing), r * (cell.height + spacing))
  }

  /** Top-left corner of the cell of the `k`-th image. */
  function SlotOrigin(k: nat, columns: nat, cell: Size, spacing: int): Point
    requires columns > 0
  {
    Origin(RowOf(k, columns), ColumnOf(k, columns), cell, spacing)
  }

  function CellRect(k: nat, columns: nat, cell: Size, spacing: int): Rect
    requires columns > 0
  {
    var o := SlotOrigin(k, columns, cell, spacing);
    Rect(o.x as real, o.y as real, cell.width as real, cell.height as real)
  }

  /** Offset that centres a length `size` in a length `cell`; half pixels when the difference is odd. */
  function CentreOffset(cell: nat, size: nat): (offset: real)
    ensures offset + size as real + offset == cell as real
    ensures offset >= 0.0 <==> size <= cell
  {
    (cell - size) as real / 2.0
  }

  /** Where the `k`-th image, drawn at its native `size`, is placed. */
  function DrawRect(k: nat, size: Size, columns: nat, cell: Size, spacing: int): (d: Rect)
    requires columns > 0
    ensures var c := CellRect(k, columns, cell, spacing);
      d.width == size.width as real && d.height == size.height as real &&
      2.0 * d.x + d.width == 2.0 * c.x + c.width &&
      2.0 * d.y + d.height == 2.0 * c.y + c.height
  {
    var o := SlotOrigin(k, columns, cell, spacing);
    Rect(o.x as real + CentreOffset(cell.width, size.width),
         o.y as real + CentreOffset(cell.height, size.height),
         size.width as real, size.height as real)
  }

  predicate Within(inner: Rect, outer: Rect)
  {
    outer.x <= inner.x && inner.x + inner.width <= outer.x + outer.width &&
    outer.y <= inner.y && inner.y + inner.height <= outer.y + outer.height
  }

  predicate Disjoint(a: Rect, b: Rect)
  {
    a.x + a.width <= b.x || b.x + b.width <= a.x ||
    a.y + a.height <= b.y || b.y + b.height <= a.y
  }

  function CanvasRect(e: Extent): Rect
  {
    Rect(0.0, 0.0, e.width as real, e.height as real)
  }

  // ---------------------------------------------------------------------------
  // Arithmetic helpers

  lemma MulLeftMono(a: int, b: int, n: int)
    requires a <= b && n >= 0
    ensures a * n <= b * n
  {
    assert b * n - a * n == (b - a) * n;
  }

  /** Row-major decomposition is unique: `r*columns + c` has row `r` and column `c`. */
  lemma RowMajorDivMod(r: nat, c: nat, columns: nat)
    requires c < columns
    ensures RowOf(r * columns + c, columns) == r
    ensures ColumnOf(r * columns + c, columns) == c
  {
    var k := r * columns + c;
    var q, m := k / columns, k % columns;
    assert columns * q + m == columns * r + c;
    if q > r {
      MulLeftMono(r + 1, q, columns);
      assert false;
    } else if q < r {
      MulLeftMono(q + 1, r, columns);
      assert false;
    }
  }

  /** A slot below `rows*columns` lies in one of the first `rows` rows. */
  lemma RowBelowRows(k: nat, rows: nat, columns: nat)
    requires columns > 0 && k < rows * columns
    ensures RowOf(k, columns) < rows
  {
    if k / columns >= rows {
      MulLeftMono(rows, k / columns, columns);
      assert false;
    }
  }

  /** Cell `c` ends no later than cell `c + 1` begins when spacing is not negative. */
  lemma OriginsSeparate(c1: nat, c2: nat, w: nat, spacing: int)
    requires c1 < c2 && spacing >= 0
    ensures c1 * (w + spacing) + w <= c2 * (w + spacing)
  {
    MulLeftMono(c1 + 1, c2, w + spacing);
  }

  /** The cell in column `c < columns` ends within the canvas width. */
  lemma OriginWithinExtent(c: nat, columns: nat, w: nat, spacing: int)
    requires c < columns && spacing >= 0
    ensures 0 <= c * (w + spacing)
    ensures c * (w + spacing) + w <= columns * w + (columns - 1) * spacing
  {
    MulLeftMono(c, columns - 1, w + spacing);
  }

  // ---------------------------------------------------------------------------
  // Properties of the layout

  /**
   * The canvas has no leading or trailing margin: the first cell starts at 0
   * and the last row/column ends exactly at the canvas edge.
   */
  lemma CanvasIsTight(rows: nat, columns: nat, cell: Size, spacing: int)
    requires rows > 0 && columns > 0
    ensures Origin(0, 0, cell, spacing) == Point(0, 0)
    ensures Origin(rows - 1, columns - 1, cell, spacing).x + cell.width
      == CanvasSize(rows, columns, cell, spacing).width
    ensures Origin(rows - 1, columns - 1, cell, spacing).y + cell.height
      == CanvasSize(rows, columns, cell, spacing).height
  {
    assert (columns - 1) * (cell.width + spacing) + cell.width
      == columns * cell.width + (columns - 1) * spacing;
    assert (rows - 1) * (cell.height + spacing) + cell.height
      == rows * cell.height + (rows - 1) * spacing;
  }

  /** Every one of the `rows*columns` cells lies inside the canvas when spacing is not negative. */
  lemma CellWithinCanvas(k: nat, rows: nat, columns: nat, cell: Size, spacing: int)
    requires columns > 0 && k < rows * columns && spacing >= 0
    ensures Within(CellRect(k, columns, cell, spacing),
                   CanvasRect(CanvasSize(rows, columns, cell, spacing)))
  {
    RowBelowRows(k, rows, columns);
    OriginWithinExtent(ColumnOf(k, columns), columns, cell.width, spacing);
    OriginWithinExtent(RowOf(k, columns), rows, cell.height, spacing);
  }

  /** Distinct slots have non-overlapping cells when spacing is not negative. */
  lemma CellsDisjoint(k1: nat, k2: nat, columns: nat, cell: Size, spacing: int)
    requires columns > 0 && k1 != k2 && spacing >= 0
    ensures Disjoint(CellRect(k1, columns, cell, spacing), CellRect(k2, columns, cell, spacing))
  {
    var r1, c1 := RowOf(k1, columns), ColumnOf(k1, columns);
    var r2, c2 := RowOf(k2, columns), ColumnOf(k2, columns);
    if c1 < c2 {
      OriginsSeparate(c1, c2, cell.width, spacing);
    } else if c2 < c1 {
      OriginsSeparate(c2, c1, cell.width, spacing);
    } else if r1 < r2 {
      OriginsSeparate(r1, r2, cell.height, spacing);
    } else if r2 < r1 {
      OriginsSeparate(r2, r1, cell.height, spacing);
    } else {
      assert false;
    }
  }

  /**
   * An image no larger than its cell is drawn entirely inside the cell,
   * with both centring offsets non-negative.
   */
  lemma CentredImageWithinCell(k: nat, size: Size, columns: nat, cell: Size, spacing: int)
    requires columns > 0
    requires size.width <= cell.width && size.height <= cell.height
    ensures CentreOffset(cell.width, size.width) >= 0.0
    ensures CentreOffset(cell.height, size.height) >= 0.0
    ensures Within(DrawRect(k, size, columns, cell, spacing), CellRect(k, columns, cell, spacing))
  {
  }

  /**
   * An image wider (taller) than its cell gets a negative offset and spills
   * past the cell's left (top) edge.
   */
  lemma OversizedImageSpills(k: nat, size: Size, columns: nat, cell: Size, spacing: int)
    requires columns > 0
    requires size.width > cell.width
    ensures CentreOffset(cell.width, size.width) < 0.0
    ensures !Within(DrawRect(k, size, columns, cell, spacing), CellRect(k, columns, cell, spacing))
  {
  }

  /** With `autoSize`, every image is drawn inside its cell and inside the canvas. */
  lemma AutoSizeDrawsWithinCanvas(sizes: seq<Size>, k: nat, rows: nat, columns: nat, spacing: int)
    requires columns > 0 && k < |sizes| && k < rows * columns && spacing >= 0
    ensures Within(DrawRect(k, sizes[k], columns, CellSize(sizes, true), spacing),
                   CanvasRect(CanvasSize(rows, columns, CellSize(sizes, true), spacing)))
  {
    var cell := CellSize(sizes, true);
    CentredImageWithinCell(k, sizes[k], columns, cell, spacing);
    CellWithinCanvas(k, rows, columns, cell, spacing);
  }
}
