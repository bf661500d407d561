/**
 * The grid renderer: from the viewport size and the camera, the range of
 * tile indices worth drawing, and one diamond outline per tile in that range,
 * row by row. The canvas is replaced by the sequence of diamonds it would be
 * asked to stroke.
 */
module GridRender {
  import opened IsoUtils
  import CameraModel

  /** Extra tiles drawn beyond the computed visible range on every side. */
  const MARGIN: int := 5

  datatype Tile = Tile(x: int, y: int)

  /** The four vertices of a tile outline, in the order they are stroked. */
  datatype Diamond = Diamond(top: Point, right: Point, bottom: Point, left: Point)

  /** A box in grid coordinates, relative to the camera. */
  datatype Box = Box(minX: real, maxX: real, minY: real, maxY: real)

  /** Inclusive tile index range: x from startX to endX, y from startY to endY. */
  datatype TileRange = TileRange(startX: int, endX: int, startY: int, endY: int)

  /** JavaScript's four-argument Math.min: a lower bound that is one of the arguments. */
  function Min4(a: real, b: real, c: real, d: real): (m: real)
    ensures m <= a && m <= b && m <= c && m <= d
    ensures m == a || m == b || m == c || m == d
  {
    MinR(MinR(a, b), MinR(c, d))
  }

  /** JavaScript's four-argument Math.max: an upper bound that is one of the arguments. */
  function Max4(a: real, b: real, c: real, d: real): (m: real)
    ensures a <= m && b <= m && c <= m && d <= m
    ensures m == a || m == b || m == c || m == d
  {
    MaxR(MaxR(a, b), MaxR(c, d))
  }

  /** The least integer not below r (JavaScript's Math.ceil). */
  function Ceil(r: real): (c: int)
    ensures r <= c as real < r + 1.0
  {
    -((-r).Floor)
  }

  /**
   * The viewport's corners (top-left, top-right, bottom-left, bottom-right) in
   * grid offsets from the camera. Opposite corners are negations of each other.
   */
  function ViewportCorners(centerX: real, centerY: real, zoom: real): (cs: seq<Point>)
    ensures |cs| == 4
    ensures cs[3] == Point(-cs[0].x, -cs[0].y) && cs[2] == Point(-cs[1].x, -cs[1].y)
  {
    ScreenToIsoOdd(-centerX, -centerY, zoom);
    ScreenToIsoOdd(centerX, -centerY, zoom);
    [ScreenToIso(-centerX, -centerY, zoom), ScreenToIso(centerX, -centerY, zoom),
     ScreenToIso(-centerX, centerY, zoom), ScreenToIso(centerX, centerY, zoom)]
  }

  /**
   * The bounding box of the viewport's corners in grid offsets from the
   * camera. Opposite corners are negations
   * of each other, so the box is symmetric about the camera and always
   * contains it.
   */
  function ViewportBox(centerX: real, centerY: real, zoom: real): (b: Box)
    ensures forall c | c in ViewportCorners(centerX, centerY, zoom) ::
              b.minX <= c.x <= b.maxX && b.minY <= c.y <= b.maxY
    ensures b.minX == -b.maxX && b.minY == -b.maxY
    ensures b.minX <= 0.0 <= b.maxX && b.minY <= 0.0 <= b.maxY
  {
    var cs := ViewportCorners(centerX, centerY, zoom);
    Box(Min4(cs[0].x, cs[1].x, cs[2].x, cs[3].x), Max4(cs[0].x, cs[1].x, cs[2].x, cs[3].x),
        Min4(cs[0].y, cs[1].y, cs[2].y, cs[3].y), Max4(cs[0].y, cs[1].y, cs[2].y, cs[3].y))
  }

  /** The box is the corners' bounding box and no larger: each of its sides is reached by a corner. */
  lemma ViewportBoxTight(centerX: real, centerY: real, zoom: real)
    ensures var b := ViewportBox(centerX, centerY, zoom);
            var cs := ViewportCorners(centerX, centerY, zoom);
            (b.minX == cs[0].x || b.minX == cs[1].x || b.minX == cs[2].x || b.minX == cs[3].x) &&
            (b.maxX == cs[0].x || b.maxX == cs[1].x || b.maxX == cs[2].x || b.maxX == cs[3].x) &&
            (b.minY == cs[0].y || b.minY == cs[1].y || b.minY == cs[2].y || b.minY == cs[3].y) &&
            (b.maxY == cs[0].y || b.maxY == cs[1].y || b.maxY == cs[2].y || b.maxY == cs[3].y)
  {
  }

  /** Every screen offset inside the viewport maps into the viewport box. */
  lemma ViewportBoxContains(centerX: real, centerY: real, zoom: real, screenX: real, screenY: real)
    requires -centerX <= screenX <= centerX && -centerY <= screenY <= centerY
    ensures var b := ViewportBox(centerX, centerY, zoom);
            var g := ScreenToIso(screenX, screenY, zoom);
            b.minX <= g.x <= b.maxX && b.minY <= g.y <= b.maxY
  {
    var hw, hh := GetTileSize(zoom).width / 2.0, GetTileSize(zoom).height / 2.0;
    var corners := ViewportCorners(centerX, centerY, zoom);
    assert corners[0] in corners && corners[1] in corners && corners[2] in corners && corners[3] in corners;
    DivideMonotone(screenX, centerX, hw);
    DivideMonotone(-centerX, screenX, hw);
    DivideMonotone(screenY, centerY, hh);
    DivideMonotone(-centerY, screenY, hh);
    assert -centerX / hw == -(centerX / hw) && -centerY / hh == -(centerY / hh);
  }

  /** Division by a positive number keeps order. */
  lemma DivideMonotone(a: real, b: real, d: real)
    requires a <= b && 0.0 < d
    ensures a / d <= b / d
  {
  }

  /** The tiles of row y from column startX to column endX, left to right. */
  function Row(y: int, startX: int, endX: int): seq<Tile>
    decreases endX - startX
  {
    if endX < startX then [] else Row(y, startX, endX - 1) + [Tile(endX, y)]
  }

  /** Rows startY to endY, top to bottom, each from startX to endX. */
  function Rows(startY: int, endY: int, startX: int, endX: int): seq<Tile>
    decreases endY - startY
  {
    if endY < startY then [] else Rows(startY, endY - 1, startX, endX) + Row(endY, startX, endX)
  }

  /** The order in which a range's tiles are drawn: y outer, x inner, both ascending. */
  function RowMajor(r: TileRange): seq<Tile>
  {
    Rows(r.startY, r.endY, r.startX, r.endX)
  }

  predicate InRange(t: Tile, r: TileRange)
  {
    r.startX <= t.x <= r.endX && r.startY <= t.y <= r.endY
  }

  /** t comes before u in row-major order. */
  predicate Before(t: Tile, u: Tile)
  {
    t.y < u.y || (t.y == u.y && t.x < u.x)
  }

  lemma {:induction false} RowContents(y: int, startX: int, endX: int, t: Tile)
    ensures t in Row(y, startX, endX) <==> t.y == y && startX <= t.x <= endX
    ensures |Row(y, startX, endX)| == if endX < startX then 0 else endX - startX + 1
    decreases endX - startX
  {
    if endX >= startX {
      RowContents(y, startX, endX - 1, t);
    }
  }

  lemma {:induction false} RowsContents(startY: int, endY: int, startX: int, endX: int, t: Tile)
    ensures t in Rows(startY, endY, startX, endX) <==>
              startY <= t.y <= endY && startX <= t.x <= endX
    ensures |Rows(startY, endY, startX, endX)|
              == if endY < startY || endX < startX then 0 else (endY - startY + 1) * (endX - startX + 1)
    decreases endY - startY
  {
    if endY >= startY {
      RowsContents(startY, endY - 1, startX, endX, t);
      RowContents(endY, startX, endX, t);
    }
  }

  /** A range draws exactly its tiles, (endX-startX+1)*(endY-startY+1) of them, and nothing when either side is empty. */
  lemma RowMajorContents(r: TileRange)
    ensures forall t :: t in RowMajor(r) <==> InRange(t, r)
    ensures r.startX <= r.endX && r.startY <= r.endY ==>
              |RowMajor(r)| == (r.endX - r.startX + 1) * (r.endY - r.startY + 1)
    ensures r.endX < r.startX || r.endY < r.startY ==> RowMajor(r) == []
  {
    forall t {
      RowsContents(r.startY, r.endY, r.startX, r.endX, t);
    }
    RowsContents(r.startY, r.endY, r.startX, r.endX, Tile(0, 0));
  }

  lemma {:induction false} RowSorted(y: int, startX: int, endX: int)
    ensures forall i, j :: 0 <= i < j < |Row(y, startX, endX)| ==>
              Before(Row(y, startX, endX)[i], Row(y, startX, endX)[j])
    decreases endX - startX
  {
    if endX >= startX {
      var prefix := Row(y, startX, endX - 1);
      RowSorted(y, startX, endX - 1);
      forall i | 0 <= i < |prefix|
        ensures Before(prefix[i], Tile(endX, y))
      {
        RowContents(y, startX, endX - 1, prefix[i]);
      }
    }
  }

  lemma {:induction false} RowsSorted(startY: int, endY: int, startX: int, endX: int)
    ensures forall i, j :: 0 <= i < j < |Rows(startY, endY, startX, endX)| ==>
              Before(Rows(startY, endY, startX, endX)[i], Rows(startY, endY, startX, endX)[j])
    decreases endY - startY
  {
    if endY >= startY {
      var upper := Rows(startY, endY - 1, startX, endX);
      var last := Row(endY, startX, endX);
      RowsSorted(startY, endY - 1, startX, endX);
      RowSorted(endY, startX, endX);
      forall i, j | 0 <= i < |upper| && 0 <= j < |last|
        ensures Before(upper[i], last[j])
      {
        RowsContents(startY, endY - 1, startX, endX, upper[i]);
        RowContents(endY, startX, endX, last[j]);
      }
    }
  }

  /** Tiles are drawn in strictly increasing row-major order, so none is drawn twice. */
  lemma RowMajorSorted(r: TileRange)
    ensures forall i, j :: 0 <= i < j < |RowMajor(r)| ==> Before(RowMajor(r)[i], RowMajor(r)[j])
  {
    RowsSorted(r.startY, r.endY, r.startX, r.endX);
  }

  /**
   * The outline of tile (x, y): the top vertex is the viewport center plus the
   * projection of the tile's offset from the camera, and the diamond is one
   * tile wide and one tile high at the zoom's tile size.
   */
  function TileDiamond(x: int, y: int, camX: real, camY: real, centerX: real, centerY: real, zoom: real): (d: Diamond)
    ensures ScreenToIso(d.top.x - centerX, d.top.y - centerY, zoom) == Point(x as real - camX, y as real - camY)
    ensures d.right.x - d.left.x == GetTileSize(zoom).width
    ensures d.bottom.y - d.top.y == GetTileSize(zoom).height
    ensures d.top.x == d.bottom.x && d.left.x + d.right.x == 2.0 * d.top.x
    ensures d.left.y == d.right.y && d.top.y + d.bottom.y == 2.0 * d.left.y
  {
    var relativeX := x as real - camX;
    var relativeY := y as real - camY;
    var screenPos := IsoToScreen(relativeX, relativeY, zoom);
    var screenX := centerX + screenPos.x;
    var screenY := centerY + screenPos.y;
    var size := GetTileSize(zoom);
    Diamond(Point(screenX, screenY),
            Point(screenX + size.width / 2.0, screenY + size.height / 2.0),
            Point(screenX, screenY + size.height),
            Point(screenX - size.width / 2.0, screenY + size.height / 2.0))
  }

  /** The tile under the camera has its top vertex exactly at the viewport center. */
  lemma CameraTileAtCenter(x: int, y: int, centerX: real, centerY: real, zoom: real)
    ensures TileDiamond(x, y, x as real, y as real, centerX, centerY, zoom).top == Point(centerX, centerY)
  {
  }

  /**
   * Neighbouring outlines share an edge: the next tile in x starts at this
   * tile's right vertex and reaches its bottom one, the next tile in y starts
   * at its left vertex and reaches its bottom one. So the outlines tile the
   * plane without gaps.
   */
  lemma NeighboursShareEdges(x: int, y: int, camX: real, camY: real, centerX: real, centerY: real, zoom: real)
    ensures var d := TileDiamond(x, y, camX, camY, centerX, centerY, zoom);
            var dx := TileDiamond(x + 1, y, camX, camY, centerX, centerY, zoom);
            var dy := TileDiamond(x, y + 1, camX, camY, centerX, centerY, zoom);
            dx.top == d.right && dx.left == d.bottom && dy.top == d.left && dy.right == d.bottom
  {
    IsoToScreenAdditive(x as real - camX, y as real - camY, 1.0, 0.0, zoom);
    IsoToScreenAdditive(x as real - camX, y as real - camY, 0.0, 1.0, zoom);
  }

  /** drawTile with the camera position, viewport center and zoom of one render call fixed. */
  function TileDrawer(cameraPos: Point, centerX: real, centerY: real, zoom: real): Tile -> Diamond
  {
    (t: Tile) => TileDiamond(t.x, t.y, cameraPos.x, cameraPos.y, centerX, centerY, zoom)
  }

  /** The outlines of a sequence of tiles, in the same order. */
  function Outlines(tiles: seq<Tile>, draw: Tile -> Diamond): seq<Diamond>
  {
    if tiles == [] then [] else Outlines(tiles[..|tiles| - 1], draw) + [draw(tiles[|tiles| - 1])]
  }

  /** The i-th outline is the outline of the i-th tile. */
  lemma {:induction false} OutlinesAt(tiles: seq<Tile>, draw: Tile -> Diamond)
    ensures |Outlines(tiles, draw)| == |tiles|
    ensures forall i | 0 <= i < |tiles| :: Outlines(tiles, draw)[i] == draw(tiles[i])
  {
    if tiles != [] {
      var prefix := tiles[..|tiles| - 1];
      OutlinesAt(prefix, draw);
      assert forall i | 0 <= i < |prefix| :: prefix[i] == tiles[i];
    }
  }

  /** The grid: its width and height in tiles. No per-tile data. */
  datatype Grid = Grid(width: int, height: int)
  {
    /**
     * The index range render draws: the viewport box moved to the camera,
     * widened by MARGIN tiles, floor/ceil to whole tiles and cut to 0..width
     * and 0..height (both ends inclusive).
     */
    function VisibleRange(camX: real, camY: real, zoom: real, screenWidth: real, screenHeight: real): (r: TileRange)
      ensures 0 <= r.startX && r.endX <= width && 0 <= r.startY && r.endY <= height
      ensures 0.0 <= camX && camX.Floor <= width ==> r.startX <= camX.Floor <= r.endX
      ensures 0.0 <= camY && camY.Floor <= height ==> r.startY <= camY.Floor <= r.endY
    {
      var box := ViewportBox(screenWidth / 2.0, screenHeight / 2.0, zoom);
      TileRange(Max(0, (box.minX + camX).Floor - MARGIN), Min(width, Ceil(box.maxX + camX) + MARGIN),
                Max(0, (box.minY + camY).Floor - MARGIN), Min(height, Ceil(box.maxY + camY) + MARGIN))
    }

    /** Every tile drawn lies in 0..width by 0..height (index width and height included). */
    lemma DrawnTilesInGrid(camX: real, camY: real, zoom: real, screenWidth: real, screenHeight: real)
      ensures forall t | t in RowMajor(VisibleRange(camX, camY, zoom, screenWidth, screenHeight)) ::
                0 <= t.x <= width && 0 <= t.y <= height
    {
      RowMajorContents(VisibleRange(camX, camY, zoom, screenWidth, screenHeight));
    }

    /** When the camera is over the grid, the tile under it is drawn. */
    lemma CameraTileDrawn(camX: real, camY: real, zoom: real, screenWidth: real, screenHeight: real)
      requires 0.0 <= camX <= width as real && 0.0 <= camY <= height as real
      ensures Tile(camX.Floor, camY.Floor) in RowMajor(VisibleRange(camX, camY, zoom, screenWidth, screenHeight))
    {
      RowMajorContents(VisibleRange(camX, camY, zoom, screenWidth, screenHeight));
    }

    /** A grid point whose offset (dx, dy) from the camera lies in the viewport box is in a drawn tile, if that tile exists. */
    lemma BoxTilesDrawn(camX: real, camY: real, zoom: real, screenWidth: real, screenHeight: real,
                        dx: real, dy: real)
      requires var box := ViewportBox(screenWidth / 2.0, screenHeight / 2.0, zoom);
               box.minX <= dx <= box.maxX && box.minY <= dy <= box.maxY
      requires 0 <= (camX + dx).Floor <= width && 0 <= (camY + dy).Floor <= height
      ensures Tile((camX + dx).Floor, (camY + dy).Floor) in RowMajor(VisibleRange(camX, camY, zoom, screenWidth, screenHeight))
    {
      var r := VisibleRange(camX, camY, zoom, screenWidth, screenHeight);
      assert r.startX <= (camX + dx).Floor <= r.endX;
      assert r.startY <= (camY + dy).Floor <= r.endY;
      RowMajorContents(r);
    }

    /** The range ends within the margin plus one tile of the viewport box moved to the camera. */
    lemma VisibleRangeNearViewport(camX: real, camY: real, zoom: real, screenWidth: real, screenHeight: real)
      ensures var box := ViewportBox(screenWidth / 2.0, screenHeight / 2.0, zoom);
              var r := VisibleRange(camX, camY, zoom, screenWidth, screenHeight);
              box.minX + camX - (MARGIN + 1) as real < r.startX as real &&
              r.endX as real < box.maxX + camX + (MARGIN + 1) as real &&
              box.minY + camY - (MARGIN + 1) as real < r.startY as real &&
              r.endY as real < box.maxY + camY + (MARGIN + 1) as real
    {
    }

    /** Culling: every drawn tile lies within the viewport box, moved to the camera, plus the margin and one tile. */
    lemma DrawnTilesNearViewport(camX: real, camY: real, zoom: real, screenWidth: real, screenHeight: real)
      ensures var box := ViewportBox(screenWidth / 2.0, screenHeight / 2.0, zoom);
              forall t | t in RowMajor(VisibleRange(camX, camY, zoom, screenWidth, screenHeight)) ::
                box.minX + camX - (MARGIN + 1) as real < t.x as real < box.maxX + camX + (MARGIN + 1) as real &&
                box.minY + camY - (MARGIN + 1) as real < t.y as real < box.maxY + camY + (MARGIN + 1) as real
    {
      VisibleRangeNearViewport(camX, camY, zoom, screenWidth, screenHeight);
      RowMajorContents(VisibleRange(camX, camY, zoom, screenWidth, screenHeight));
    }

    /** A camera far enough past any side of the grid draws nothing. */
    lemma FarCameraDrawsNothing(camX: real, camY: real, zoom: real, screenWidth: real, screenHeight: real)
      requires var box := ViewportBox(screenWidth / 2.0, screenHeight / 2.0, zoom);
               camX + box.maxX <= -(MARGIN + 1) as real || camX + box.minX >= (width + MARGIN + 1) as real ||
               camY + box.maxY <= -(MARGIN + 1) as real || camY + box.minY >= (height + MARGIN + 1) as real
      ensures RowMajor(VisibleRange(camX, camY, zoom, screenWidth, screenHeight)) == []
    {
      RowMajorContents(VisibleRange(camX, camY, zoom, screenWidth, screenHeight));
    }

    /**
     * Draws the grid as seen by the camera on a screen of the given logical
     * size: one diamond per tile of the visible range, in row-major order.
     */
    method Render(camera: CameraModel.Camera, screenWidth: real, screenHeight: real) returns (drawn: seq<Diamond>)
      ensures drawn == Outlines(RowMajor(VisibleRange(camera.x, camera.y, camera.zoom as real, screenWidth, screenHeight)),
                                TileDrawer(Point(camera.x, camera.y), screenWidth / 2.0, screenHeight / 2.0, camera.zoom as real))
    {
      var range := VisibleRange(camera.x, camera.y, camera.zoom as real, screenWidth, screenHeight);
      var draw := TileDrawer(Point(camera.x, camera.y), screenWidth / 2.0, screenHeight / 2.0, camera.zoom as real);
      drawn := DrawRange(range, draw);
    }

    /**
     * What render draws, tile by tile: the k-th outline is the outline of the
     * k-th tile of the visible range in row-major order, and there are exactly
     * as many outlines as tiles in the range.
     */
    lemma RenderedOutlines(camX: real, camY: real, zoom: real, screenWidth: real, screenHeight: real)
      ensures var tiles := RowMajor(VisibleRange(camX, camY, zoom, screenWidth, screenHeight));
              var drawn := Outlines(tiles, TileDrawer(Point(camX, camY), screenWidth / 2.0, screenHeight / 2.0, zoom));
              |drawn| == |tiles| &&
              forall k | 0 <= k < |tiles| ::
                drawn[k] == TileDiamond(tiles[k].x, tiles[k].y, camX, camY, screenWidth / 2.0, screenHeight / 2.0, zoom)
    {
      var tiles := RowMajor(VisibleRange(camX, camY, zoom, screenWidth, screenHeight));
      OutlinesAt(tiles, TileDrawer(Point(camX, camY), screenWidth / 2.0, screenHeight / 2.0, zoom));
    }
  }

  /** The nested loop of render: draw is called on every tile of the range, y outer, x inner, both ascending. */
  method DrawRange(range: TileRange, draw: Tile -> Diamond) returns (drawn: seq<Diamond>)
    ensures drawn == Outlines(RowMajor(range), draw)
  {
    drawn := [];
    ghost var tiles: seq<Tile> := [];
    var y := range.startY;
    while y <= range.endY
      invariant range.startY <= y <= Max(range.startY, range.endY + 1)
      invariant tiles == Rows(range.startY, y - 1, range.startX, range.endX)
      invariant drawn == Outlines(tiles, draw)
    {
      var x := range.startX;
      while x <= range.endX
        invariant range.startX <= x <= Max(range.startX, range.endX + 1)
        invariant tiles == Rows(range.startY, y - 1, range.startX, range.endX) + Row(y, range.startX, x - 1)
        invariant drawn == Outlines(tiles, draw)
      {
        drawn := drawn + [draw(Tile(x, y))];
        ghost var tilesBefore := tiles;
        tiles := tiles + [Tile(x, y)];
        assert tiles[..|tiles| - 1] == tilesBefore;
        x := x + 1;
      }
      y := y + 1;
    }
  }

  /** The viewport box of an 800x600 screen at zoom 0. */
  lemma ExampleBox()
    ensures ViewportBox(400.0, 300.0, 0.0) == Box(-15.625, 15.625, -15.625, 15.625)
  {
    assert GetTileSize(0.0) == TileSize(64.0, 32.0);
    assert ScreenToIso(-400.0, -300.0, 0.0) == Point(-15.625, -3.125);
    assert ScreenToIso(400.0, -300.0, 0.0) == Point(-3.125, -15.625);
    assert ScreenToIso(-400.0, 300.0, 0.0) == Point(3.125, 15.625);
    assert ScreenToIso(400.0, 300.0, 0.0) == Point(15.625, 3.125);
  }

  /** The worked example: a 100x100 grid on an 800x600 screen at zoom 0 with the camera at (50, 50). */
  lemma ExampleRange()
    ensures Grid(100, 100).VisibleRange(50.0, 50.0, 0.0, 800.0, 600.0) == TileRange(29, 71, 29, 71)
  {
    ExampleBox();
    assert (-15.625 + 50.0).Floor == 34;
    assert Ceil(15.625 + 50.0) == 66;
  }

  /** The inclusive bounds let the range reach index width itself: on a 100x100 grid, tile (100, 100) is drawn. */
  lemma EdgeIndexDrawn()
    ensures Grid(100, 100).VisibleRange(100.0, 100.0, 0.0, 800.0, 600.0) == TileRange(79, 100, 79, 100)
    ensures Tile(100, 100) in RowMajor(Grid(100, 100).VisibleRange(100.0, 100.0, 0.0, 800.0, 600.0))
  {
    assert Grid(100, 100).VisibleRange(100.0, 100.0, 0.0, 800.0, 600.0) == TileRange(79, 100, 79, 100) by {
      ExampleBox();
      assert (-15.625 + 100.0).Floor == 84;
      assert Ceil(15.625 + 100.0) == 116;
    }
    RowsContents(79, 100, 79, 100, Tile(100, 100));
  }
}
