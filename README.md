# Tile grid renderer: layout, culling and frame timing

This project models the logic of `index.js`, a browser demo. The demo draws a
scrollable grid of animated tiles on a canvas and leaves animation playback
and rasterisation to the Rive engine. Three parts of the script have behaviour
that can be stated exactly, and those are what the model covers:

- **Layout** (`createAnimations`). From the canvas width and the constants
  `columns = 3`, `totalAnimations = 37` and `margin = 20`, the script builds a
  fresh array of square tiles in row-major order. It also sets the page height
  so that the page scrolls over every row.
- **Culling** (`renderLoop`). In each frame the script walks the tiles in
  array order. It advances and draws only the tiles that pass a strict
  vertical visibility test against the scroll offset and the canvas height,
  and it counts them.
- **Frame timing** (`renderLoop`). The first frame, when `lastTime` is still
  0, has zero elapsed time. Every later frame has `(time - lastTime) / 1000`
  seconds. `lastTime` then becomes the frame's timestamp.

The model has four modules:

- `Layout` (`layout.dfy`): the tile geometry, as pure functions and lemmas.
- `Culling` (`culling.dfy`): the visibility test and the list of visible
  indices.
- `FrameClock` (`frame_clock.dfy`): the elapsed-time rule.
- `TileGrid` (`tile_grid.dfy`): a class `Scene`. It holds the script's global
  variables (`tileArray`, `scrollPosition`, `lastTime`, the canvas size and
  the body height) as fields. Its methods are the resize handler, the layout
  loop, the scroll handler and one pass of the render loop, and each method's
  contract is stated with the pure functions.

Lengths are exact `real`s, so the model idealises the browser's
floating-point arithmetic. The canvas width and height are `nat`, because the
DOM stores them as integers. Scroll offset and timestamps are `real`.

Advancing an engine tile is a foreign call. Its effect is modelled as a
per-tile clock: the number of seconds that the tile has been advanced by.
`tile.advance` and `tile.stateMachine.advance` get the same elapsed time for
the same tiles, so one clock stands for both. A new layout starts every clock
at 0, just as the script creates new engine instances.

Two consequences of the code's formulas are worth stating:

- Tile 2 of a 980-pixel canvas is at x = 20 + 2 × (300 + 20) = 660
  (`Layout.Example980`).
- The culling test `y > scroll - height` passes only when the tile's bottom
  edge is below the top of the viewport, so there is no slack above the
  viewport. The only slack is one tile height below it
  (`Culling.VisibleMeansExtendedOnScreen`, `Culling.SlackOnlyBelow`).

## Model

| member | source | states |
|---|---|---|
| `Layout.CeilDiv` | index.js:47 | the row count rounds up: `r * b >= a`, and `r - 1` rows would not be enough |
| `Layout.GridPosition` | index.js:51-52 | index `i` splits into column `i % 3` (below 3) and row `i / 3`, with `row * 3 + col == i`; every one of the 37 indices has its row below the 13 rows |
| `Layout.TilesSquare` | index.js:43-45 | every tile is square with the cell size as its side; three cell widths plus four margins make up the canvas width |
| `Layout.CellInside` | index.js:53-54 | with a non-negative cell size, the cell at any of the 3 columns and 13 rows keeps a margin from the canvas edges and from the content height |
| `Layout.TileInsideContent` | index.js:43-54 | with a non-negative cell size every tile keeps a margin on all sides: `x >= margin`, `x + width + margin <= canvasWidth`, `y >= margin` and `y + height + margin <= totalHeight` |
| `Layout.ContentTight` | index.js:47-48 | the content height fits the bottom of the last tile plus one margin exactly, and the last column ends exactly one margin from the right edge |
| `Layout.DistinctCells` | index.js:51-52 | distinct indices get distinct (column, row) pairs |
| `Layout.CellsApart` | index.js:53-54 | with a non-negative cell size, cells at distinct grid coordinates are at least a margin apart |
| `Layout.TilesDisjoint` | index.js:51-54 | with a non-negative cell size, two distinct tiles are at least a margin apart horizontally or vertically, so their closed rectangles do not overlap |
| `Layout.Example980` | index.js:17-19 | on a 980-pixel canvas: cells are 300, there are 13 rows, the height is 4180, and tiles 0, 2 and 3 are at (20,20), (660,20) and (20,340) |
| `Culling.VisiblePrefixExact` | index.js:89-94 | an index is in the visible list if and only if it is in range and its tile passes the visibility test |
| `Culling.VisiblePrefixIncreasing` | index.js:90 | the visible list is strictly increasing, which is array order with no index repeated |
| `Culling.VisiblePrefixCount` | index.js:89-94 | the length of the visible list equals the number of tiles that pass the test |
| `Culling.VisibilityStrict` | index.js:91 | both sides of the test are strict: a tile at `y == scroll - height` or at `y == scroll + viewportHeight + height` is culled |
| `Culling.OnScreenIsVisible` | index.js:91 | culling is conservative: a tile of non-negative height whose vertical extent meets the viewport is never culled |
| `Culling.VisibleMeansExtendedOnScreen` | index.js:91 | a tile passes the test if and only if it meets the viewport extended by one tile height below |
| `Culling.SlackOnlyBelow` | index.js:91 | a tile whose bottom edge touches the viewport top is culled; a tile whose top edge touches the viewport bottom is drawn |
| `Culling.ExampleVisible` | index.js:91 | a tile at y = 1000 of height 300, with scroll 500 and viewport 800, is visible; the same tile at y = 1600 is not |
| `FrameClock.ElapsedSeconds` | index.js:81-84 | the elapsed time is 0 when `lastTime` is unset (0); otherwise it is `(time - lastTime) / 1000` seconds |
| `FrameClock.TotalElapsedTelescopes` | index.js:81-85 | after the first frame, the seconds handed out over a run of frames add up to the time from the previous timestamp to the last one, provided no frame but the last is stamped 0 |
| `FrameClock.FirstRunTelescopes` | index.js:78-85 | from program start, the seconds handed out add up to the time from the first frame to the last one |
| `TileGrid.Scene.constructor` | index.js:15-78 | the program starts with an empty tile array, scroll 0 and `lastTime` 0, then lays the grid out for the window size |
| `TileGrid.Scene.Resize` | index.js:25-36 | the canvas takes the window's size and the grid is laid out again; scroll offset and `lastTime` are kept |
| `TileGrid.Scene.CreateAnimations` | index.js:41-72 | the tile array is replaced, not appended to: it holds exactly 37 tiles, tile `i` is `TileAt(canvasWidth, i)` with its clock at 0, and the body height is the total content height; the result depends on the canvas width alone |
| `TileGrid.Scene.OnScroll` | index.js:74-76 | the scroll offset becomes the browser's `scrollY`, and the layout invariant (`Valid`: 37 tiles placed by `TileAt` for the canvas width, one clock each, the page height `TotalHeight`) is kept |
| `TileGrid.Scene.RenderLoop` | index.js:80-115 | the elapsed time follows `ElapsedSeconds` and `lastTime` becomes `time`; the list of advanced tiles is the visible list; the visible count is its length and equals the number of visible tiles; each visible tile's clock advances by the elapsed time and every other clock is unchanged |

## Left out

- The Rive engine: loading the runtime, decoding the file, `artboardByName`, `stateMachineByIndex` and `StateMachineInstance`. These are foreign calls with no visible semantics. Advancing a tile and its state machine is modelled as a per-tile clock.
- Asset fetch and decode: this is network I/O.
- Drawing: `renderer.clear`, `save`, `translate(tile.x, tile.y - scroll)`, `draw` and `restore`, and the translucent debug rectangle. These are rendering side effects, so the tile's screen offset is not modelled.
- The renderer handle replaced on resize (delete, then create). It wraps an external graphics resource and has no logic to check.
- DOM plumbing: the window size, `scrollY`, the event listeners and `requestAnimationFrame` scheduling. Their values become method parameters (`Resize`, `OnScroll`, `RenderLoop`). The never-ending chain of frames becomes one call per frame.
- `console.clear` and `console.log`: logging only.
- IEEE-754 rounding of the divisions, and NaN. Lengths and times are exact reals. The check `!lastTime` is modelled as `lastTime == 0`, so a frame stamped exactly 0 leaves the clock unset.
- `Layout.TileInsideContent` and `Layout.TilesDisjoint` require a non-negative cell size (a canvas at least 80 pixels wide). On a narrower canvas the script places tiles of negative size, and the model states nothing about them. Below 16 pixels the total content height is negative too. The script then writes an invalid CSS height, which the browser ignores, while the model records the negative value as `bodyHeight`.
