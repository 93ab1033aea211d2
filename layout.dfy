/**
 * Grid layout of the animation tiles.
 *
 * From the canvas width and three fixed constants the script places
 * `TotalAnimations` square tiles in `Columns` columns, separated from each
 * other and from the canvas edges by `Margin` pixels, and computes the height
 * of the scrollable content. Lengths are exact reals: the model is an
 * idealisation of the browser's floating-point arithmetic.
 */
module Layout {

  /** Number of tile columns. */
  const Columns: nat := 3
  /** Number of tiles in the grid. */
  const TotalAnimations: nat := 37
  /** Gap between neighbouring tiles and between the tiles and the canvas edges. */
  const Margin: real := 20.0

  /** A placed tile: its top-left corner and its size, in canvas pixels. */
  datatype Tile = Tile(x: real, y: real, width: real, height: real)

  /** Integer division rounded up: the smallest multiple count of `b` that covers `a`. */
  function CeilDiv(a: nat, b: nat): (r: nat)
    requires b > 0
    ensures r * b >= a
    ensures r == 0 || (r - 1) * b < a
  {
    var q := (a + b - 1) / b;
    assert q * b + (a + b - 1) % b == a + b - 1;
    q
  }

  /** Side length of every cell: the width left after the margins, shared by the columns. */
  function CellSize(canvasWidth: real): real
  {
    (canvasWidth - Margin * (Columns + 1) as real) / Columns as real
  }

  /** Number of rows the tiles occupy. */
  function Rows(): nat
  {
    CeilDiv(TotalAnimations, Columns)
  }

  /** Height of the scrollable content: all rows, each followed by a margin, plus the top margin. */
  function TotalHeight(canvasWidth: real): real
  {
    Rows() as real * (CellSize(canvasWidth) + Margin) + Margin
  }

  /** Column of the tile with index `i`. */
  function Column(i: nat): nat
  {
    i % Columns
  }

  /** Row of the tile with index `i`. */
  function Row(i: nat): nat
  {
    i / Columns
  }

  /** The square cell at column `col` and row `row` of the grid for `canvasWidth`. */
  function Cell(canvasWidth: real, col: nat, row: nat): Tile
  {
    Tile(Margin + col as real * (CellSize(canvasWidth) + Margin),
         Margin + row as real * (CellSize(canvasWidth) + Margin),
         CellSize(canvasWidth), CellSize(canvasWidth))
  }

  /** The tile with index `i`, as the layout places it. */
  function TileAt(canvasWidth: real, i: nat): Tile
  {
    Cell(canvasWidth, Column(i), Row(i))
  }

  /** Two rectangles (edges included) share at least one point. */
  predicate Overlap(a: Tile, b: Tile)
  {
    a.x <= b.x + b.width && b.x <= a.x + a.width &&
    a.y <= b.y + b.height && b.y <= a.y + a.height
  }

  /** One rectangle lies at least `Margin` to the side of, above or below the other. */
  predicate Apart(a: Tile, b: Tile)
  {
    a.x + a.width + Margin <= b.x || b.x + b.width + Margin <= a.x ||
    a.y + a.height + Margin <= b.y || b.y + b.height + Margin <= a.y
  }

  /** Every index decomposes into its row and column, and the grid has room for every tile. */
  lemma GridPosition(i: nat)
    ensures Column(i) < Columns
    ensures Row(i) * Columns + Column(i) == i
    ensures i < TotalAnimations ==> Row(i) < Rows()
  {
    if i < TotalAnimations {
      assert Rows() == 13;
      assert Row(i) * Columns <= i;
    }
  }

  /**
   * The canvas width and the content height, in terms of the cell size. The
   * literals are `Columns` (3) and `Rows()` (13 rows for 37 tiles in 3 columns),
   * written out so that the solver sees plain products.
   */
  lemma Extent(canvasWidth: real)
    ensures canvasWidth == 3.0 * (CellSize(canvasWidth) + Margin) + Margin
    ensures TotalHeight(canvasWidth) == 13.0 * (CellSize(canvasWidth) + Margin) + Margin
  {
    assert Rows() == 13;
  }

  /** Every tile is a square whose side is the cell size; three sides and four margins span the canvas. */
  lemma TilesSquare(canvasWidth: real, i: nat)
    ensures TileAt(canvasWidth, i).width == TileAt(canvasWidth, i).height == CellSize(canvasWidth)
    ensures TileAt(canvasWidth, i).width * Columns as real + Margin * (Columns + 1) as real == canvasWidth
  {
  }

  /** Slot `k` of `n` cells of a non-negative size starts at or after 0 and ends by `n` slots. */
  lemma SlotFits(k: nat, n: nat, cell: real)
    requires k < n && cell >= 0.0
    ensures 0.0 <= k as real * (cell + Margin)
    ensures k as real * (cell + Margin) + cell + Margin <= n as real * (cell + Margin)
  {
    assert n as real * (cell + Margin) - k as real * (cell + Margin) - (cell + Margin)
        == (n - k - 1) as real * (cell + Margin);
  }

  /** A slot among the three columns (`Columns`) ends within three slots. */
  lemma ColumnFits(k: nat, cell: real)
    requires k < 3 && cell >= 0.0
    ensures 0.0 <= k as real * (cell + Margin)
    ensures k as real * (cell + Margin) + cell + Margin <= 3.0 * (cell + Margin)
  {
    SlotFits(k, 3, cell);
  }

  /** A slot among the thirteen rows (`Rows()`) ends within thirteen slots. */
  lemma RowFits(k: nat, cell: real)
    requires k < 13 && cell >= 0.0
    ensures 0.0 <= k as real * (cell + Margin)
    ensures k as real * (cell + Margin) + cell + Margin <= 13.0 * (cell + Margin)
  {
    SlotFits(k, 13, cell);
  }

  /** A cell in one of the grid's 3 columns and 13 rows keeps a margin from the content's edges. */
  lemma CellInside(canvasWidth: real, col: nat, row: nat)
    requires col < 3 && row < 13
    requires CellSize(canvasWidth) >= 0.0
    ensures Margin <= Cell(canvasWidth, col, row).x
    ensures Cell(canvasWidth, col, row).x + Cell(canvasWidth, col, row).width + Margin <= canvasWidth
    ensures Margin <= Cell(canvasWidth, col, row).y
    ensures Cell(canvasWidth, col, row).y + Cell(canvasWidth, col, row).height + Margin <= TotalHeight(canvasWidth)
  {
    Extent(canvasWidth);
    ColumnFits(col, CellSize(canvasWidth));
    RowFits(row, CellSize(canvasWidth));
  }

  /**
   * With a non-negative cell size every tile lies inside the canvas width and
   * the content height, keeping a margin on every side.
   */
  lemma TileInsideContent(canvasWidth: real, i: nat)
    requires i < TotalAnimations
    requires CellSize(canvasWidth) >= 0.0
    ensures Margin <= TileAt(canvasWidth, i).x
    ensures TileAt(canvasWidth, i).x + TileAt(canvasWidth, i).width + Margin <= canvasWidth
    ensures Margin <= TileAt(canvasWidth, i).y
    ensures TileAt(canvasWidth, i).y + TileAt(canvasWidth, i).height + Margin <= TotalHeight(canvasWidth)
  {
    GridPosition(i);
    assert Rows() == 13;
    CellInside(canvasWidth, Column(i), Row(i));
  }

  /** The last slot of `n` ends exactly at `n` slots. */
  lemma SlotEnd(k: nat, n: nat, cell: real)
    requires k + 1 == n
    ensures k as real * (cell + Margin) + cell + Margin == n as real * (cell + Margin)
  {
  }

  /** The content height fits the last tile exactly, and the last column reaches the right margin. */
  lemma ContentTight(canvasWidth: real)
    ensures TileAt(canvasWidth, TotalAnimations - 1).y + CellSize(canvasWidth) + Margin == TotalHeight(canvasWidth)
    ensures TileAt(canvasWidth, Columns - 1).x + CellSize(canvasWidth) + Margin == canvasWidth
  {
    Extent(canvasWidth);
    assert Row(TotalAnimations - 1) == 12 && Column(Columns - 1) == 2;
    SlotEnd(12, 13, CellSize(canvasWidth));
    SlotEnd(2, 3, CellSize(canvasWidth));
  }

  /** Distinct indices sit in distinct grid cells. */
  lemma DistinctCells(i: nat, j: nat)
    requires i != j
    ensures Column(i) != Column(j) || Row(i) != Row(j)
  {
    GridPosition(i);
    GridPosition(j);
  }

  /** Cells at distinct grid coordinates, of a non-negative size, are at least a margin apart. */
  lemma CellsApart(canvasWidth: real, ci: nat, ri: nat, cj: nat, rj: nat)
    requires ci != cj || ri != rj
    requires CellSize(canvasWidth) >= 0.0
    ensures Apart(Cell(canvasWidth, ci, ri), Cell(canvasWidth, cj, rj))
  {
    if ci < cj {
      SlotFits(ci, cj, CellSize(canvasWidth));
    } else if cj < ci {
      SlotFits(cj, ci, CellSize(canvasWidth));
    } else if ri < rj {
      SlotFits(ri, rj, CellSize(canvasWidth));
    } else {
      SlotFits(rj, ri, CellSize(canvasWidth));
    }
  }

  /**
   * With a non-negative cell size two distinct tiles are at least a margin
   * apart, so, the margin being positive, their rectangles do not overlap.
   */
  lemma TilesDisjoint(canvasWidth: real, i: nat, j: nat)
    requires i < TotalAnimations && j < TotalAnimations && i != j
    requires CellSize(canvasWidth) >= 0.0
    ensures Apart(TileAt(canvasWidth, i), TileAt(canvasWidth, j))
    ensures !Overlap(TileAt(canvasWidth, i), TileAt(canvasWidth, j))
  {
    DistinctCells(i, j);
    CellsApart(canvasWidth, Column(i), Row(i), Column(j), Row(j));
  }

  /** The layout of a 980-pixel-wide canvas: 300-pixel cells, 13 rows, content 4180 pixels high. */
  lemma Example980()
    ensures CellSize(980.0) == 300.0
    ensures Rows() == 13
    ensures TotalHeight(980.0) == 4180.0
    ensures TileAt(980.0, 0) == Tile(20.0, 20.0, 300.0, 300.0)
    ensures TileAt(980.0, 2) == Tile(660.0, 20.0, 300.0, 300.0)
    ensures TileAt(980.0, 3) == Tile(20.0, 340.0, 300.0, 300.0)
  {
    assert Column(2) == 2 && Row(2) == 0;
    assert Column(3) == 0 && Row(3) == 1;
  }
}
