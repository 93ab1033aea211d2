/**
 * Per-frame visibility culling.
 *
 * Each frame the render loop walks the tiles in array order and advances and
 * draws only those whose vertical position passes the visibility test against
 * the current scroll offset and viewport height.
 */
module Culling {
  import opened Layout

  /** The render loop's visibility test, strict on both sides. */
  predicate IsVisible(t: Tile, scroll: real, viewportHeight: real)
  {
    t.y > scroll - t.height && t.y < scroll + viewportHeight + t.height
  }

  /** The tile's vertical extent meets the viewport's (open intervals). */
  predicate OnScreen(t: Tile, scroll: real, viewportHeight: real)
  {
    t.y < scroll + viewportHeight && scroll < t.y + t.height
  }

  /** Indices, in increasing order, of the visible tiles among the first `n`. */
  function VisiblePrefix(tiles: seq<Tile>, n: nat, scroll: real, viewportHeight: real): seq<nat>
    requires n <= |tiles|
  {
    if n == 0 then []
    else VisiblePrefix(tiles, n - 1, scroll, viewportHeight)
         + (if IsVisible(tiles[n - 1], scroll, viewportHeight) then [n - 1] else [])
  }

  /** Indices, in increasing order, of all visible tiles. */
  function VisibleIndices(tiles: seq<Tile>, scroll: real, viewportHeight: real): seq<nat>
  {
    VisiblePrefix(tiles, |tiles|, scroll, viewportHeight)
  }

  /** The set of indices of the visible tiles among the first `n`. */
  ghost function VisibleSet(tiles: seq<Tile>, n: nat, scroll: real, viewportHeight: real): set<nat>
    requires n <= |tiles|
  {
    set i: nat | i < n && IsVisible(tiles[i], scroll, viewportHeight)
  }

  /** An index is listed exactly when it is in range and its tile is visible. */
  lemma {:induction false} VisiblePrefixExact(tiles: seq<Tile>, n: nat, scroll: real, viewportHeight: real)
    requires n <= |tiles|
    ensures forall i: nat :: i in VisiblePrefix(tiles, n, scroll, viewportHeight) <==>
                             i < n && IsVisible(tiles[i], scroll, viewportHeight)
  {
    if n > 0 {
      VisiblePrefixExact(tiles, n - 1, scroll, viewportHeight);
    }
  }

  /** The listed indices are strictly increasing (array order) and all below `n`. */
  lemma {:induction false} VisiblePrefixIncreasing(tiles: seq<Tile>, n: nat, scroll: real, viewportHeight: real)
    requires n <= |tiles|
    ensures forall k :: 0 <= k < |VisiblePrefix(tiles, n, scroll, viewportHeight)| ==>
                        VisiblePrefix(tiles, n, scroll, viewportHeight)[k] < n
    ensures forall k, l :: 0 <= k < l < |VisiblePrefix(tiles, n, scroll, viewportHeight)| ==>
                           VisiblePrefix(tiles, n, scroll, viewportHeight)[k] < VisiblePrefix(tiles, n, scroll, viewportHeight)[l]
  {
    if n > 0 {
      VisiblePrefixIncreasing(tiles, n - 1, scroll, viewportHeight);
    }
  }

  /** The number of listed indices is the number of tiles that pass the test. */
  lemma {:induction false} VisiblePrefixCount(tiles: seq<Tile>, n: nat, scroll: real, viewportHeight: real)
    requires n <= |tiles|
    ensures |VisiblePrefix(tiles, n, scroll, viewportHeight)| == |VisibleSet(tiles, n, scroll, viewportHeight)|
  {
    if n > 0 {
      VisiblePrefixCount(tiles, n - 1, scroll, viewportHeight);
      var before := VisibleSet(tiles, n - 1, scroll, viewportHeight);
      assert n - 1 !in before;
      if IsVisible(tiles[n - 1], scroll, viewportHeight) {
        assert VisibleSet(tiles, n, scroll, viewportHeight) == before + {n - 1};
      } else {
        assert VisibleSet(tiles, n, scroll, viewportHeight) == before;
      }
    }
  }

  /** A tile exactly one tile height above the scroll offset, or that far below the viewport, is culled. */
  lemma VisibilityStrict(t: Tile, scroll: real, viewportHeight: real)
    ensures t.y == scroll - t.height ==> !IsVisible(t, scroll, viewportHeight)
    ensures t.y == scroll + viewportHeight + t.height ==> !IsVisible(t, scroll, viewportHeight)
  {
  }

  /** Culling is conservative: a tile of non-negative height that meets the viewport is never culled. */
  lemma OnScreenIsVisible(t: Tile, scroll: real, viewportHeight: real)
    requires t.height >= 0.0
    ensures OnScreen(t, scroll, viewportHeight) ==> IsVisible(t, scroll, viewportHeight)
  {
  }

  /**
   * The test amounts to the tile meeting the viewport extended by one tile
   * height below it, and not at all above it.
   */
  lemma VisibleMeansExtendedOnScreen(t: Tile, scroll: real, viewportHeight: real)
    ensures IsVisible(t, scroll, viewportHeight) <==> OnScreen(t, scroll, viewportHeight + t.height)
  {
  }

  /**
   * The slack is one-sided: a tile whose bottom edge touches the top of the
   * viewport is culled, while one whose top edge touches the bottom of the
   * viewport is drawn.
   */
  lemma SlackOnlyBelow(t: Tile, scroll: real, viewportHeight: real)
    requires t.height > 0.0 && viewportHeight >= 0.0
    ensures t.y + t.height == scroll ==> !IsVisible(t, scroll, viewportHeight)
    ensures t.y == scroll + viewportHeight ==> IsVisible(t, scroll, viewportHeight)
  {
  }

  /** Tile at y = 1000 of height 300, scrolled by 500 in an 800-pixel viewport, is visible. */
  lemma ExampleVisible()
    ensures IsVisible(Tile(20.0, 1000.0, 300.0, 300.0), 500.0, 800.0)
    ensures !IsVisible(Tile(20.0, 1600.0, 300.0, 300.0), 500.0, 800.0)
  {
  }
}
