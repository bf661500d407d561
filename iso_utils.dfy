/**
 * Isometric projection: the tile-size table and the two linear maps between
 * grid coordinates (tiles) and screen offsets (pixels). JavaScript numbers are
 * modelled as exact reals.
 */
module IsoUtils {

  /** Tile size in pixels at zoom level 0 (far). */
  const BASE_TILE_WIDTH: real := 64.0
  const BASE_TILE_HEIGHT: real := 32.0

  /** Scale factor per zoom level: 0 = far, 1 = middle, 2 = close. */
  const ZOOM_MULTIPLIERS: seq<real> := [1.0, 1.5, 2.0]

  /** The highest zoom level, the last index of ZOOM_MULTIPLIERS. */
  const MAX_ZOOM: int := 2

  datatype Point = Point(x: real, y: real)

  datatype TileSize = TileSize(width: real, height: real)

  // Min, Max, MinR and MaxR are JavaScript's two-argument Math.min and Math.max, on integers and on reals.
  function Min(a: int, b: int): int { if a <= b then a else b }

  function Max(a: int, b: int): int { if a <= b then b else a }

  function MinR(a: real, b: real): real { if a <= b then a else b }

  function MaxR(a: real, b: real): real { if a <= b then b else a }

  /** The zoom level a requested zoom selects: its floor, clamped to 0..MAX_ZOOM. */
  function ClampZoom(zoom: real): (level: int)
    ensures 0 <= level <= MAX_ZOOM && level < |ZOOM_MULTIPLIERS|
    ensures 0.0 <= zoom < 3.0 ==> level == zoom.Floor
    ensures zoom < 0.0 ==> level == 0
    ensures 2.0 <= zoom ==> level == MAX_ZOOM
  {
    Max(0, Min(MAX_ZOOM, zoom.Floor))
  }

  /** Tile size for a zoom (0 when omitted): the base size scaled by the level's multiplier. */
  function GetTileSize(zoom: real := 0.0): (size: TileSize)
    ensures size.width > 0.0 && size.height > 0.0
    ensures size.width == 2.0 * size.height
    ensures size == TileSize(64.0, 32.0) || size == TileSize(96.0, 48.0) || size == TileSize(128.0, 64.0)
  {
    var multiplier := ZOOM_MULTIPLIERS[ClampZoom(zoom)];
    TileSize(BASE_TILE_WIDTH * multiplier, BASE_TILE_HEIGHT * multiplier)
  }

  /**
   * Screen offset from the projection origin to grid coordinates: the
   * difference of the grid coordinates is the horizontal offset in half tile
   * widths, their sum the vertical offset in half tile heights.
   */
  function ScreenToIso(screenX: real, screenY: real, zoom: real := 0.0): (g: Point)
    ensures g.x - g.y == screenX / (GetTileSize(zoom).width / 2.0)
    ensures g.x + g.y == screenY / (GetTileSize(zoom).height / 2.0)
  {
    var size := GetTileSize(zoom);
    Point((screenX / (size.width / 2.0) + screenY / (size.height / 2.0)) / 2.0,
          (screenY / (size.height / 2.0) - screenX / (size.width / 2.0)) / 2.0)
  }

  /** Grid coordinates to a screen offset from the projection origin; screen to grid recovers them exactly. */
  function IsoToScreen(isoX: real, isoY: real, zoom: real := 0.0): (p: Point)
    ensures ScreenToIso(p.x, p.y, zoom) == Point(isoX, isoY)
  {
    var size := GetTileSize(zoom);
    var p := Point((isoX - isoY) * (size.width / 2.0), (isoX + isoY) * (size.height / 2.0));
    assert p.x / (size.width / 2.0) == isoX - isoY;
    assert p.y / (size.height / 2.0) == isoX + isoY;
    p
  }

  /** The three rows of the tile-size table, and the default zoom. */
  lemma TileSizeTable()
    ensures GetTileSize(0.0) == TileSize(64.0, 32.0)
    ensures GetTileSize(1.0) == TileSize(96.0, 48.0)
    ensures GetTileSize(2.0) == TileSize(128.0, 64.0)
    ensures GetTileSize() == GetTileSize(0.0)
  {
  }

  /** Any zoom, however far outside 0..2 or however fractional, gives the size of its clamped level. */
  lemma TileSizeByLevel(zoom: real)
    ensures GetTileSize(zoom) == GetTileSize(ClampZoom(zoom) as real)
    ensures GetTileSize(zoom).width == BASE_TILE_WIDTH * ZOOM_MULTIPLIERS[ClampZoom(zoom)]
  {
  }

  /** Zooming closer never makes tiles smaller. */
  lemma TileSizeMonotone(z1: real, z2: real)
    requires z1 <= z2
    ensures GetTileSize(z1).width <= GetTileSize(z2).width
    ensures GetTileSize(z1).height <= GetTileSize(z2).height
  {
  }

  /** The worked examples: one step along each grid axis, and along both. */
  lemma IsoToScreenExamples()
    ensures IsoToScreen(1.0, 0.0, 0.0) == Point(32.0, 16.0)
    ensures IsoToScreen(0.0, 1.0, 0.0) == Point(-32.0, 16.0)
    ensures IsoToScreen(1.0, 1.0, 0.0) == Point(0.0, 32.0)
    ensures IsoToScreen(1.0, 0.0) == IsoToScreen(1.0, 0.0, 0.0)
  {
    var size := GetTileSize(0.0);
    assert size.width / 2.0 == 32.0 && size.height / 2.0 == 16.0;
  }

  /** The worked example in reverse: the screen point of tile (1, 0) maps back to it. */
  lemma ScreenToIsoExample()
    ensures ScreenToIso(32.0, 16.0) == Point(1.0, 0.0)
  {
    var size := GetTileSize(0.0);
    assert size.width / 2.0 == 32.0 && size.height / 2.0 == 16.0;
  }

  /** ScreenToIso written without nested divisions: sx/w + sy/h and sy/h - sx/w. */
  lemma ScreenToIsoClosedForm(screenX: real, screenY: real, zoom: real)
    ensures var size := GetTileSize(zoom);
            ScreenToIso(screenX, screenY, zoom)
              == Point(screenX / size.width + screenY / size.height,
                       screenY / size.height - screenX / size.width)
  {
  }

  /** Mapping a screen offset to the grid and back gives it back exactly. */
  lemma IsoToScreenInverse(screenX: real, screenY: real, zoom: real)
    ensures var g := ScreenToIso(screenX, screenY, zoom);
            IsoToScreen(g.x, g.y, zoom) == Point(screenX, screenY)
  {
    var size := GetTileSize(zoom);
    var u := screenX / (size.width / 2.0);
    var v := screenY / (size.height / 2.0);
    var g := ScreenToIso(screenX, screenY, zoom);
    assert g.x - g.y == u;
    assert g.x + g.y == v;
    assert u * (size.width / 2.0) == screenX;
    assert v * (size.height / 2.0) == screenY;
  }

  /** Grid to screen fixes the origin and commutes with negation. */
  lemma IsoToScreenOdd(isoX: real, isoY: real, zoom: real)
    ensures IsoToScreen(0.0, 0.0, zoom) == Point(0.0, 0.0)
    ensures var s := IsoToScreen(isoX, isoY, zoom);
            IsoToScreen(-isoX, -isoY, zoom) == Point(-s.x, -s.y)
  {
  }

  /** Screen to grid fixes the origin and commutes with negation. */
  lemma ScreenToIsoOdd(screenX: real, screenY: real, zoom: real)
    ensures ScreenToIso(0.0, 0.0, zoom) == Point(0.0, 0.0)
    ensures var g := ScreenToIso(screenX, screenY, zoom);
            ScreenToIso(-screenX, -screenY, zoom) == Point(-g.x, -g.y)
  {
  }

  /** Grid to screen is additive: a shift in the grid moves the screen point by the shift's image. */
  lemma IsoToScreenAdditive(dx1: real, dy1: real, dx2: real, dy2: real, zoom: real)
    ensures var a := IsoToScreen(dx1, dy1, zoom);
            var b := IsoToScreen(dx2, dy2, zoom);
            IsoToScreen(dx1 + dx2, dy1 + dy2, zoom) == Point(a.x + b.x, a.y + b.y)
  {
  }
}
