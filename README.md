# Isometric grid engine: projection, camera and visible-tile culling

This project models the core of a small browser engine that draws a pannable,
zoomable isometric tile grid. There are three parts.

- **Isometric projection** (`iso_utils.dfy`, module `IsoUtils`). This part holds:
  - the base tile size of 64x32 pixels;
  - the zoom multiplier table 1.0 / 1.5 / 2.0;
  - `GetTileSize`, which clamps any real zoom to a table index;
  - the two linear maps between grid coordinates and screen offsets, `IsoToScreen` and `ScreenToIso`.

  JavaScript numbers are exact `real`s here. Because of that, the two maps are proved to be exact inverses of each other.
- **Camera** (`camera.dfy`, module `CameraModel`). This is a class with mutable fields:
  - a position `x`, `y`;
  - a speed;
  - the held-direction table `keys` (a map from the four direction names to flags);
  - four optional bounds (`Option<real>`, where `None` stands for `null`);
  - a zoom level.

  The methods change exactly the fields they name. The class invariant `Valid` has two parts:
  - the key table holds exactly the four directions and the zoom is 0, 1 or 2;
  - the position is where the clamp would leave it.

  The constructor, `Update`, `ClampPosition`, `SetPosition` and `SetBounds` establish `Valid`. `SetKey`, `SetZoom`, `ZoomIn` and `ZoomOut` touch neither the position nor the bounds, so they keep the first part and keep `Valid` when it held before. `Move` is the unclamped step inside `Update`. The pure functions `ClampAxis`, `MoveSpeed`, `Displacement`, `ZoomedIn` and `ZoomedOut` specify the methods.
- **Grid rendering** (`grid.dfy`, module `GridRender`). `Grid` is a value: its width and height in tiles. `Grid.Render` reads the camera and computes these steps:
  - the viewport's four corners in grid space (`ViewportCorners`) and their bounding box (`ViewportBox`);
  - the margin-padded tile range, cut to the grid (`Grid.VisibleRange`);
  - a nested loop (`DrawRange`) that appends one `Diamond` per tile, in row-major order. The diamond stands for the four vertices `drawTile` strokes, and the sequence takes the canvas's place.

  `RowMajor` and `Outlines` are the reference definitions of the tile order and of the output.

`options.dfy` holds the `Option` type used for the nullable bounds.

## Model

| member | source | states |
|---|---|---|
| IsoUtils.ClampZoom | src/engine/IsoUtils.js:23 | The table index is always 0..2. It is floor(zoom) for zoom in [0,3), 0 below 0, and 2 from 2 up. |
| IsoUtils.GetTileSize | src/engine/IsoUtils.js:8-28 | Tile width and height are positive, height is exactly half the width, and the size is one of 64x32, 96x48, 128x64. |
| IsoUtils.TileSizeTable | src/engine/IsoUtils.js:22-28 | The sizes are 64x32 at zoom 0, 96x48 at 1 and 128x64 at 2; an omitted zoom means zoom 0. |
| IsoUtils.TileSizeByLevel | src/engine/IsoUtils.js:22-28 | Any real zoom gives the size of its clamped integer level, that is, base width times that level's multiplier. |
| IsoUtils.TileSizeMonotone | src/engine/IsoUtils.js:15-28 | A larger zoom never gives a smaller tile. |
| IsoUtils.IsoToScreen | src/engine/IsoUtils.js:37-42 | Grid coordinates become a screen offset that screen to grid maps back to the same grid point exactly, for every point and zoom. |
| IsoUtils.ScreenToIso | src/engine/IsoUtils.js:51-56 | The difference of the resulting grid coordinates is the horizontal offset in half tile widths, and their sum is the vertical offset in half tile heights. |
| IsoUtils.IsoToScreenExamples | src/engine/IsoUtils.js:37-42 | At zoom 0, (1,0) maps to (32,16), (0,1) to (-32,16) and (1,1) to (0,32); an omitted zoom means zoom 0. |
| IsoUtils.ScreenToIsoExample | src/engine/IsoUtils.js:51-56 | Screen offset (32,16) at the default zoom maps back to grid point (1,0). |
| IsoUtils.ScreenToIsoClosedForm | src/engine/IsoUtils.js:51-56 | Screen to grid equals (sx/w + sy/h, sy/h - sx/w) for the zoom's tile size w x h. |
| IsoUtils.IsoToScreenInverse | src/engine/IsoUtils.js:37-56 | Mapping screen to grid and back returns the original screen offset exactly, for every offset and zoom. |
| IsoUtils.IsoToScreenOdd | src/engine/IsoUtils.js:39-40 | Grid to screen sends the origin to the origin and a negated point to the negated image. |
| IsoUtils.ScreenToIsoOdd | src/engine/IsoUtils.js:53-54 | Screen to grid sends the origin to the origin and a negated offset to the negated image. |
| IsoUtils.IsoToScreenAdditive | src/engine/IsoUtils.js:37-42 | Grid to screen is additive: the image of a sum is the sum of the images. |
| CameraModel.ClampAxis | src/engine/Camera.js:76-87 | After the clamp the value is at most a set upper bound, and at least a set lower bound when the bounds are consistent. A value below a consistent lower bound becomes that bound, and a value above the upper bound becomes the upper bound. Inconsistent bounds give the upper bound. An in-bounds value is unchanged. The result is the value or one of the bounds. |
| CameraModel.ClampAxisIdempotent | src/engine/Camera.js:75-88 | Clamping twice is the same as clamping once. |
| CameraModel.ClampFixedIffInBounds | src/engine/Camera.js:75-88 | Under consistent bounds, the clamp leaves a value unchanged if and only if the value satisfies the bounds. |
| CameraModel.MoveSpeed | src/engine/Camera.js:37 | A frame of exactly 16.67 ms moves by the speed. No time or no speed means no move. Non-negative inputs give a non-negative step. |
| CameraModel.MoveSpeedAdditive | src/engine/Camera.js:37 | Frame-rate independence: the step for two time slices together is the sum of their steps. |
| CameraModel.Displacement | src/engine/Camera.js:40-66 | Diagonal pairs are tried in the order up+left, up+right, down+left, down+right, and the first held pair moves each axis by ±step·0.707. Otherwise each held flag adds its own ±step to its axis. |
| CameraModel.DisplacementLength | src/engine/Camera.js:40-66 | Opposite flags cancel and no flag gives no move. An axis move has squared length step², a diagonal move 0.999698·step². |
| CameraModel.ZoomedIn | src/engine/Camera.js:155-159 | zoomIn adds one exactly when the level is below 2 and stays within 0..2. |
| CameraModel.ZoomedOut | src/engine/Camera.js:164-168 | zoomOut subtracts one exactly when the level is above 0 and stays within 0..2. |
| CameraModel.ZoomInSaturates | src/engine/Camera.js:155-159 | From a valid level, n zoomIn calls give min(2, level + n). |
| CameraModel.ZoomOutSaturates | src/engine/Camera.js:164-168 | From a valid level, n zoomOut calls give max(0, level - n). |
| CameraModel.TenZoomSteps | src/engine/Camera.js:155-168 | Ten zoomIn calls from 0 give 2, and ten zoomOut calls from 2 give 0. |
| CameraModel.Camera.constructor | src/engine/Camera.js:5-29 | A new camera is at (0,0) with speed 2, all four flags false, all bounds null and zoom 0, and it satisfies the invariant. |
| CameraModel.Camera.Update | src/engine/Camera.js:35-70 | The new position is the clamp of the old position plus the displacement the held flags select for a step of MoveSpeed(speed, deltaTime). Only x and y change, and the invariant holds afterwards. |
| CameraModel.Camera.Move | src/engine/Camera.js:40-66 | The if/else chain moves x and y by exactly the Displacement of the held flags. |
| CameraModel.Camera.ClampPosition | src/engine/Camera.js:75-88 | Each coordinate becomes its ClampAxis value. An already clamped position is unchanged, and the invariant holds afterwards. Only x and y may change, so keys, zoom and bounds are untouched. |
| CameraModel.Camera.SetKey | src/engine/Camera.js:95-99 | One of the four directions updates only its own flag. Any other name changes nothing. Only keys may change, so a clamped camera stays clamped. |
| CameraModel.Camera.GetPosition | src/engine/Camera.js:105-107 | The result is the current position, and it satisfies every pair of consistent bounds. |
| CameraModel.Camera.SetPosition | src/engine/Camera.js:114-118 | The position becomes the clamp of the requested one, and the invariant holds. |
| CameraModel.Camera.SetBounds | src/engine/Camera.js:127-134 | All four bounds are replaced, then the current position is clamped to them. |
| CameraModel.Camera.GetZoom | src/engine/Camera.js:140-142 | The result is the zoom level, which is always 0, 1 or 2. |
| CameraModel.Camera.SetZoom | src/engine/Camera.js:148-150 | The zoom becomes the clamped floor of the request, ClampZoom, and only the zoom changes, so a clamped camera stays clamped. |
| CameraModel.Camera.ZoomIn | src/engine/Camera.js:155-159 | The zoom becomes ZoomedIn of the old zoom, and only the zoom changes, so a clamped camera stays clamped. |
| CameraModel.Camera.ZoomOut | src/engine/Camera.js:164-168 | The zoom becomes ZoomedOut of the old zoom, and only the zoom changes, so a clamped camera stays clamped. |
| GridRender.Min4 | src/engine/Grid.js:35-38 | Math.min of four numbers is at most each of them and equal to one of them. |
| GridRender.Max4 | src/engine/Grid.js:35-38 | Math.max of four numbers is at least each of them and equal to one of them. |
| GridRender.Ceil | src/engine/Grid.js:43 | Math.ceil gives the least integer that is at least r. |
| GridRender.ViewportCorners | src/engine/Grid.js:29-32 | There are four corners, and opposite screen corners map to grid points that are negations of each other. |
| GridRender.ViewportBox | src/engine/Grid.js:29-38 | The box contains all four mapped corners. It is symmetric about the camera (minX = -maxX, minY = -maxY), so minX ≤ 0 ≤ maxX and minY ≤ 0 ≤ maxY. |
| GridRender.ViewportBoxTight | src/engine/Grid.js:35-38 | Each side of the box is reached by one of the four corners, so the box is the corners' bounding box and no larger. |
| GridRender.ViewportBoxContains | src/engine/Grid.js:24-38 | Every screen offset inside the viewport maps into the box. |
| GridRender.RowContents | src/engine/Grid.js:53 | A row holds exactly the tiles of that y from startX to endX, endX - startX + 1 of them. |
| GridRender.RowsContents | src/engine/Grid.js:52-53 | The rows hold exactly the tiles of the rectangle, (endY-startY+1)·(endX-startX+1) of them. |
| GridRender.RowMajorContents | src/engine/Grid.js:52-56 | A range draws exactly the tiles in it, (endX-startX+1)·(endY-startY+1) of them, and nothing when startX > endX or startY > endY. |
| GridRender.RowSorted | src/engine/Grid.js:53 | Within a row, x strictly increases. |
| GridRender.RowsSorted | src/engine/Grid.js:52-53 | Tiles come in strictly increasing row-major order. |
| GridRender.RowMajorSorted | src/engine/Grid.js:52-56 | Tiles are drawn with y outer and x inner, both ascending, so no tile is drawn twice. |
| GridRender.TileDiamond | src/engine/Grid.js:69-96 | The top vertex maps back, through screen to grid, to the tile's offset from the camera. The diamond is one tile wide and high at the zoom's tile size, with right, bottom and left placed symmetrically about the top. |
| GridRender.CameraTileAtCenter | src/engine/Grid.js:71-79 | The tile whose index equals the camera position has its top vertex exactly at the viewport center. |
| GridRender.NeighboursShareEdges | src/engine/Grid.js:71-92 | The next tile in x starts at this tile's right vertex, and the next in y at its left vertex, so the outlines leave no gaps. |
| GridRender.OutlinesAt | src/engine/Grid.js:52-56 | There is one outline per tile, and the i-th outline is the i-th tile's. |
| GridRender.Grid.VisibleRange | src/engine/Grid.js:41-45 | The range lies within 0..width by 0..height, both ends included. When the camera is over the grid, it contains the camera's tile. |
| GridRender.Grid.DrawnTilesInGrid | src/engine/Grid.js:42-53 | Every drawn tile satisfies 0 ≤ x ≤ width and 0 ≤ y ≤ height. |
| GridRender.Grid.CameraTileDrawn | src/engine/Grid.js:41-53 | When 0 ≤ camX ≤ width and 0 ≤ camY ≤ height, the tile (floor camX, floor camY) is drawn. |
| GridRender.Grid.BoxTilesDrawn | src/engine/Grid.js:35-53 | Every grid point whose offset from the camera lies in the viewport box is in a drawn tile, if that tile exists in the grid. |
| GridRender.Grid.VisibleRangeNearViewport | src/engine/Grid.js:35-45 | Each end of the range lies strictly within margin + 1 tiles of the viewport box placed at the camera. |
| GridRender.Grid.DrawnTilesNearViewport | src/engine/Grid.js:35-53 | Only tiles near the viewport are drawn: every drawn tile lies strictly within margin + 1 tiles of the viewport box placed at the camera, on both axes. |
| GridRender.Grid.FarCameraDrawsNothing | src/engine/Grid.js:42-56 | A camera at least margin + 1 tiles past any of the grid's four sides, measured from the viewport box, draws nothing. |
| GridRender.Grid.Render | src/engine/Grid.js:17-57 | The output is exactly the outlines of the visible range's tiles in row-major order, drawn with the camera's position and zoom about the screen center. |
| GridRender.Grid.RenderedOutlines | src/engine/Grid.js:52-96 | The k-th outline rendered is drawTile of the k-th tile, and there are as many outlines as tiles. |
| GridRender.DrawRange | src/engine/Grid.js:52-56 | The nested loop calls draw on the range's tiles in row-major order and returns exactly their outlines. |
| GridRender.ExampleBox | src/engine/Grid.js:29-38 | An 800x600 screen at zoom 0 covers the grid box [-15.625, 15.625]². |
| GridRender.ExampleRange | src/engine/Grid.js:41-45 | A 100x100 grid, camera at (50,50), 800x600 screen, zoom 0 gives the tile range 29..71 by 29..71. |
| GridRender.EdgeIndexDrawn | src/engine/Grid.js:43-53 | Because the bounds are inclusive, on a 100x100 grid with the camera at (100,100) the range reaches index 100, and tile (100,100) is drawn. |

Together, `ViewportBoxContains` and `Grid.BoxTilesDrawn` say that every point of the viewport lies over a drawn tile whenever that tile exists in the grid. The other half of culling is `ViewportBoxTight` with `Grid.DrawnTilesNearViewport`: no drawn tile lies more than margin + 1 tiles outside the corners' bounding box.

The comment on the grid's dimensions reads as if tile indices stop below the width. The code draws index `width` itself: the loop uses `<=` and the end is `min(width, …)`. The model follows the code, and `Grid.DrawnTilesInGrid` and `EdgeIndexDrawn` state the inclusive bound.

`Camera.Update` delegates its direction chain to `Camera.Move`. The move and the clamp are separate steps of the same method body.

`Grid.Render` reads the camera's `x`, `y` and `zoom` fields directly. These are the values `getPosition` and `getZoom` return, and `Camera.GetPosition` and `Camera.GetZoom` state that equality.

## Left out

- `src/main.js` is not part of this model. It holds the DOM listeners, the key-code map, canvas resizing and a debounce timer: platform glue that only calls camera methods.
- `src/engine/GameEngine.js` is not part of this model. It holds the animation-frame loop, window size reads, the screen clear and the debug text, which are scheduling and I/O.
- Canvas side effects in `Grid.js` are not modelled: stroke style, line width, and the path begin/close/stroke calls. The sequence of `Diamond` records stands for what is stroked.
- The screen size is a parameter of `Grid.Render`. The model does not read the canvas size or divide by the device pixel ratio.
- IEEE-754 behaviour (rounding, NaN, Infinity) is not modelled: all numbers are exact reals. The constants 0.707 and 16.67 are taken literally, so a diagonal step is not claimed to have the same length as an axis step (`DisplacementLength` gives the factor 0.999698).
- Grid dimensions and tile indices are integers. A fractional grid width is outside the model.
- `DrawRange` receives `drawTile`, with the camera position, center and zoom of one render fixed, as a function value (`TileDrawer`).
- The camera's fields are public in JavaScript. Outside code could set a field to any value. Every method requires only that the key table hold the four directions and that the zoom be a level 0..2 (`WellFormed`). The constructor establishes this and every method keeps it.
- The grid constructor is the datatype constructor `Grid(width, height)`; it has no contract of its own.
