/**
 * The script's mutable state and the operations that change it: layout on
 * resize, the scroll handler and one pass of the render loop.
 *
 * The engine's tile objects are the `Tile` records of the layout; what
 * advancing a tile does inside the engine is reduced to a per-tile clock, the
 * number of seconds the tile (and its state machine) has been advanced by.
 */
module TileGrid {
  import opened Layout
  import opened Culling
  import opened FrameClock

  class Scene {
    /** Canvas size in pixels, set from the window size on every resize. */
    var canvasWidth: nat
    var canvasHeight: nat
    /** The placed tiles, in index order. */
    var tiles: seq<Tile>
    /** Seconds each tile has been advanced by since it was created. */
    var clocks: seq<real>
    /** Height given to the page so that it scrolls over the whole grid. */
    var bodyHeight: real
    /** Vertical scroll offset, as last reported by the browser. */
    var scrollPosition: real
    /** Timestamp of the previous frame, 0 before the first frame. */
    var lastTime: real

    /**
     * Every tile has its own clock, and the tiles and the page height are the
     * layout for the current canvas width.
     */
    ghost predicate Valid()
      reads this
    {
      && |clocks| == |tiles|
      && |tiles| == TotalAnimations
      && (forall i :: 0 <= i < |tiles| ==> tiles[i] == TileAt(canvasWidth as real, i))
      && bodyHeight == TotalHeight(canvasWidth as real)
    }

    /** Program start: empty state, then the initial resize with the window's size. */
    constructor (innerWidth: nat, innerHeight: nat)
      ensures Valid()
      ensures canvasWidth == innerWidth && canvasHeight == innerHeight
      ensures |tiles| == TotalAnimations
      ensures forall i :: 0 <= i < |tiles| ==> tiles[i] == TileAt(innerWidth as real, i) && clocks[i] == 0.0
      ensures bodyHeight == TotalHeight(innerWidth as real)
      ensures scrollPosition == 0.0 && lastTime == 0.0
    {
      tiles, clocks := [], [];
      scrollPosition := 0.0;
      lastTime := 0.0;
      new;
      Resize(innerWidth, innerHeight);
    }

    /** Resize handler: take the window's size and lay the grid out again. */
    method Resize(innerWidth: nat, innerHeight: nat)
      modifies this
      ensures Valid()
      ensures canvasWidth == innerWidth && canvasHeight == innerHeight
      ensures |tiles| == TotalAnimations
      ensures forall i :: 0 <= i < |tiles| ==> tiles[i] == TileAt(innerWidth as real, i) && clocks[i] == 0.0
      ensures bodyHeight == TotalHeight(innerWidth as real)
      ensures scrollPosition == old(scrollPosition) && lastTime == old(lastTime)
    {
      canvasWidth := innerWidth;
      canvasHeight := innerHeight;
      CreateAnimations();
    }

    /**
     * Replaces the tiles with a fresh grid for the current canvas width. The
     * result depends on the canvas width alone: nothing of the previous tiles
     * or their clocks survives.
     */
    method CreateAnimations()
      modifies this`tiles, this`clocks, this`bodyHeight
      ensures Valid()
      ensures |tiles| == TotalAnimations
      ensures forall i :: 0 <= i < |tiles| ==> tiles[i] == TileAt(canvasWidth as real, i) && clocks[i] == 0.0
      ensures bodyHeight == TotalHeight(canvasWidth as real)
    {
      tiles, clocks := [], [];
      var availableWidth := canvasWidth as real - Margin * (Columns + 1) as real;
      var cellWidth := availableWidth / Columns as real;
      var cellHeight := cellWidth;
      var rows := CeilDiv(TotalAnimations, Columns);
      var totalHeight := rows as real * (cellHeight + Margin) + Margin;
      for i := 0 to TotalAnimations
        invariant |tiles| == i && |clocks| == i
        invariant forall k :: 0 <= k < i ==> tiles[k] == TileAt(canvasWidth as real, k) && clocks[k] == 0.0
      {
        var col := i % Columns;
        var row := i / Columns;
        var x := Margin + col as real * (cellWidth + Margin);
        var y := Margin + row as real * (cellHeight + Margin);
        tiles := tiles + [Tile(x, y, cellWidth, cellHeight)];
        clocks := clocks + [0.0];
      }
      bodyHeight := totalHeight;
    }

    /** Scroll handler: remember the browser's scroll offset. */
    method OnScroll(scrollY: real)
      requires Valid()
      modifies this`scrollPosition
      ensures Valid()
      ensures scrollPosition == scrollY
    {
      scrollPosition := scrollY;
    }

    /**
     * One frame at timestamp `time`: works out the elapsed seconds, then
     * advances exactly the visible tiles by them, in array order, counting
     * them. `advanced` lists the indices of the tiles advanced.
     */
    method RenderLoop(time: real) returns (elapsed: real, visibleCount: nat, advanced: seq<nat>)
      requires Valid()
      modifies this`lastTime, this`clocks
      ensures Valid()
      ensures elapsed == ElapsedSeconds(old(lastTime), time)
      ensures lastTime == time
      ensures advanced == VisibleIndices(tiles, scrollPosition, canvasHeight as real)
      ensures visibleCount == |advanced| == |VisibleSet(tiles, |tiles|, scrollPosition, canvasHeight as real)|
      ensures forall i :: 0 <= i < |tiles| ==>
                clocks[i] == if IsVisible(tiles[i], scrollPosition, canvasHeight as real)
                             then old(clocks[i]) + elapsed else old(clocks[i])
    {
      if lastTime == 0.0 {
        lastTime := time;
      }
      elapsed := (time - lastTime) / MillisPerSecond;
      lastTime := time;

      visibleCount, advanced := 0, [];
      for index := 0 to |tiles|
        invariant |clocks| == |tiles| && lastTime == time
        invariant advanced == VisiblePrefix(tiles, index, scrollPosition, canvasHeight as real)
        invariant visibleCount == |advanced|
        invariant forall i :: 0 <= i < index ==>
                    clocks[i] == if IsVisible(tiles[i], scrollPosition, canvasHeight as real)
                                 then old(clocks[i]) + elapsed else old(clocks[i])
        invariant forall i :: index <= i < |tiles| ==> clocks[i] == old(clocks[i])
      {
        var tile := tiles[index];
        var isVisible := tile.y > scrollPosition - tile.height
                         && tile.y < scrollPosition + canvasHeight as real + tile.height;
        if isVisible {
          visibleCount := visibleCount + 1;
          clocks := clocks[index := clocks[index] + elapsed];
          advanced := advanced + [index];
        }
      }
      VisiblePrefixCount(tiles, |tiles|, scrollPosition, canvasHeight as real);
    }
  }
}
