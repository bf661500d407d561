/**
 * The camera: a position in grid units, four held-direction flags, four
 * optional bounds and a zoom level. Every operation that moves the camera
 * ends by clamping the position to the bounds that are set.
 */
module CameraModel {
  import opened Options
  import opened IsoUtils

  /** The reference frame interval in milliseconds (60 updates per second). */
  const FRAME_MS: real := 16.67

  /** The per-axis factor of a diagonal step, an approximation of cos 45 degrees. */
  const DIAGONAL: real := 0.707

  /** A new camera's speed, in tiles per reference frame interval. */
  const DEFAULT_SPEED: real := 2.0

  /** The direction names the key table holds; no other name is ever stored. */
  const DIRECTIONS: set<string> := {"up", "down", "left", "right"}

  /** A value satisfies a pair of optional bounds: null means unbounded on that side. */
  predicate InBounds(v: real, lo: Option<real>, hi: Option<real>)
  {
    (lo.Some? ==> lo.value <= v) && (hi.Some? ==> v <= hi.value)
  }

  /** Some value satisfies both bounds: they are not both set with the lower above the upper. */
  predicate Consistent(lo: Option<real>, hi: Option<real>)
  {
    lo.None? || hi.None? || lo.value <= hi.value
  }

  /**
   * One axis of the clamp: raise to the lower bound, then lower to the upper
   * bound, each only when set. The upper bound always holds afterwards; the
   * lower one holds when the bounds are consistent, and inconsistent bounds
   * leave the value at the upper bound.
   */
  function ClampAxis(v: real, lo: Option<real>, hi: Option<real>): (r: real)
    ensures hi.Some? ==> r <= hi.value
    ensures lo.Some? && Consistent(lo, hi) ==> lo.value <= r
    ensures !Consistent(lo, hi) ==> r == hi.value
    ensures InBounds(v, lo, hi) ==> r == v
    ensures r == v || (lo.Some? && r == lo.value) || (hi.Some? && r == hi.value)
    ensures lo.Some? && v < lo.value && Consistent(lo, hi) ==> r == lo.value
    ensures hi.Some? && hi.value < v ==> r == hi.value
  {
    var raised := if lo.Some? then MaxR(lo.value, v) else v;
    if hi.Some? then MinR(hi.value, raised) else raised
  }

  /** Clamping twice is clamping once. */
  lemma ClampAxisIdempotent(v: real, lo: Option<real>, hi: Option<real>)
    ensures ClampAxis(ClampAxis(v, lo, hi), lo, hi) == ClampAxis(v, lo, hi)
  {
  }

  /** Under consistent bounds, the clamp leaves exactly the in-bounds values where they are. */
  lemma ClampFixedIffInBounds(v: real, lo: Option<real>, hi: Option<real>)
    requires Consistent(lo, hi)
    ensures ClampAxis(v, lo, hi) == v <==> InBounds(v, lo, hi)
  {
  }

  /** Distance moved along an axis in one update: speed scaled by the elapsed time over the reference interval. */
  function MoveSpeed(speed: real, deltaTime: real): (step: real)
    ensures deltaTime == FRAME_MS ==> step == speed
    ensures deltaTime == 0.0 || speed == 0.0 ==> step == 0.0
    ensures speed >= 0.0 && deltaTime >= 0.0 ==> step >= 0.0
  {
    speed * (deltaTime / FRAME_MS)
  }

  /** The step is proportional to the elapsed time: two intervals move as far as their sum, whatever the frame rate. */
  lemma MoveSpeedAdditive(speed: real, a: real, b: real)
    ensures MoveSpeed(speed, a + b) == MoveSpeed(speed, a) + MoveSpeed(speed, b)
  {
    assert (a + b) / FRAME_MS == a / FRAME_MS + b / FRAME_MS;
  }

  /** True when a vertical and a horizontal flag are both held, so one of the diagonal moves applies. */
  predicate DiagonalHeld(up: bool, down: bool, left: bool, right: bool)
  {
    (up || down) && (left || right)
  }

  function Sign(plus: bool, minus: bool): real
  {
    (if plus then 1.0 else 0.0) - (if minus then 1.0 else 0.0)
  }

  /**
   * The displacement of one update before clamping. Diagonal pairs are tried
   * in the order up+left, up+right, down+left, down+right and the first held
   * pair wins; otherwise each held flag moves its own axis by the full step.
   */
  function Displacement(up: bool, down: bool, left: bool, right: bool, step: real): (d: Point)
    ensures up && left ==> d == Point(-step * DIAGONAL, -step * DIAGONAL)
    ensures up && right && !left ==> d == Point(step * DIAGONAL, -step * DIAGONAL)
    ensures down && left && !up ==> d == Point(-step * DIAGONAL, step * DIAGONAL)
    ensures down && right && !up && !left ==> d == Point(step * DIAGONAL, step * DIAGONAL)
    ensures DiagonalHeld(up, down, left, right) ==>
              (d.x == step * DIAGONAL || d.x == -step * DIAGONAL) &&
              (d.y == step * DIAGONAL || d.y == -step * DIAGONAL)
    ensures !DiagonalHeld(up, down, left, right) ==>
              d == Point(Sign(right, left) * step, Sign(down, up) * step)
  {
    if up && left then Point(-step * DIAGONAL, -step * DIAGONAL)
    else if up && right then Point(step * DIAGONAL, -step * DIAGONAL)
    else if down && left then Point(-step * DIAGONAL, step * DIAGONAL)
    else if down && right then Point(step * DIAGONAL, step * DIAGONAL)
    else
      var dy := (if up then -step else 0.0) + (if down then step else 0.0);
      var dx := (if left then -step else 0.0) + (if right then step else 0.0);
      Point(dx, dy)
  }

  /**
   * Held opposite flags cancel, no flag means no motion, and the squared
   * length of a step is the full step squared on an axis but only 0.999698
   * times it on a diagonal: 0.707 approximates cos 45 degrees.
   */
  lemma DisplacementLength(up: bool, down: bool, left: bool, right: bool, step: real)
    ensures var d := Displacement(up, down, left, right, step);
            (!up && !down && !left && !right ==> d == Point(0.0, 0.0)) &&
            (up && down && !left && !right ==> d == Point(0.0, 0.0)) &&
            (left && right && !up && !down ==> d == Point(0.0, 0.0)) &&
            ((up != down) && !left && !right ==> d.x * d.x + d.y * d.y == step * step) &&
            ((left != right) && !up && !down ==> d.x * d.x + d.y * d.y == step * step) &&
            (DiagonalHeld(up, down, left, right) ==> d.x * d.x + d.y * d.y == 0.999698 * (step * step))
  {
    var d := Displacement(up, down, left, right, step);
    if DiagonalHeld(up, down, left, right) {
      assert d.x * d.x == (step * DIAGONAL) * (step * DIAGONAL);
      assert d.y * d.y == (step * DIAGONAL) * (step * DIAGONAL);
      assert (step * DIAGONAL) * (step * DIAGONAL) == 0.499849 * (step * step);
    }
  }

  /** The saturating step of zoomIn: one level closer unless already at the closest. */
  function ZoomedIn(level: int): (r: int)
    ensures level <= r <= level + 1
    ensures r == level + 1 <==> level < MAX_ZOOM
    ensures 0 <= level <= MAX_ZOOM ==> 0 <= r <= MAX_ZOOM
  {
    if level < MAX_ZOOM then level + 1 else level
  }

  /** The saturating step of zoomOut: one level farther unless already at the farthest. */
  function ZoomedOut(level: int): (r: int)
    ensures level - 1 <= r <= level
    ensures r == level - 1 <==> level > 0
    ensures 0 <= level <= MAX_ZOOM ==> 0 <= r <= MAX_ZOOM
  {
    if level > 0 then level - 1 else level
  }

  /** The level after n successive zoomIn calls. */
  function ZoomInTimes(level: int, n: nat): int
  {
    if n == 0 then level else ZoomedIn(ZoomInTimes(level, n - 1))
  }

  /** The level after n successive zoomOut calls. */
  function ZoomOutTimes(level: int, n: nat): int
  {
    if n == 0 then level else ZoomedOut(ZoomOutTimes(level, n - 1))
  }

  /** Repeated zoomIn saturates at the closest level. */
  lemma {:induction false} ZoomInSaturates(level: int, n: nat)
    requires 0 <= level <= MAX_ZOOM
    ensures ZoomInTimes(level, n) == Min(MAX_ZOOM, level + n)
  {
    if n > 0 {
      ZoomInSaturates(level, n - 1);
    }
  }

  /** Repeated zoomOut saturates at the farthest level. */
  lemma {:induction false} ZoomOutSaturates(level: int, n: nat)
    requires 0 <= level <= MAX_ZOOM
    ensures ZoomOutTimes(level, n) == Max(0, level - n)
  {
    if n > 0 {
      ZoomOutSaturates(level, n - 1);
    }
  }

  /** Ten zoomIn calls from the farthest level reach the closest; ten zoomOut calls from it come back. */
  lemma TenZoomSteps()
    ensures ZoomInTimes(0, 10) == 2
    ensures ZoomOutTimes(2, 10) == 0
  {
    ZoomInSaturates(0, 10);
    ZoomOutSaturates(2, 10);
  }

  class Camera {
    var x: real
    var y: real
    var speed: real
    /** Held-direction flags, keyed by direction name. */
    var keys: map<string, bool>
    var minX: Option<real>
    var maxX: Option<real>
    var minY: Option<real>
    var maxY: Option<real>
    /** 0 = far, 1 = middle, 2 = close. */
    var zoom: int

    /** The key table holds exactly the four directions and the zoom is a valid level. */
    ghost predicate WellFormed()
      reads this
    {
      keys.Keys == DIRECTIONS && 0 <= zoom <= MAX_ZOOM
    }

    /** The position is where the clamp would leave it. */
    ghost predicate Clamped()
      reads this
    {
      x == ClampAxis(x, minX, maxX) && y == ClampAxis(y, minY, maxY)
    }

    ghost predicate Valid()
      reads this
    {
      WellFormed() && Clamped()
    }

    constructor ()
      ensures Valid()
      ensures x == 0.0 && y == 0.0 && speed == DEFAULT_SPEED
      ensures keys == map["up" := false, "down" := false, "left" := false, "right" := false]
      ensures minX == None && maxX == None && minY == None && maxY == None
      ensures zoom == 0
    {
      x, y := 0.0, 0.0;
      speed := DEFAULT_SPEED;
      keys := map["up" := false, "down" := false, "left" := false, "right" := false];
      minX, maxX, minY, maxY := None, None, None, None;
      zoom := 0;
    }

    /** Advances the position by the held directions over deltaTime milliseconds, then clamps. */
    method Update(deltaTime: real)
      requires WellFormed()
      modifies this`x, this`y
      ensures Valid()
      ensures var d := Displacement(keys["up"], keys["down"], keys["left"], keys["right"],
                                    MoveSpeed(speed, deltaTime));
              x == ClampAxis(old(x) + d.x, minX, maxX) && y == ClampAxis(old(y) + d.y, minY, maxY)
    {
      var moveSpeed := MoveSpeed(speed, deltaTime);
      ghost var d := Displacement(keys["up"], keys["down"], keys["left"], keys["right"], moveSpeed);
      Move(moveSpeed);
      assert x == old(x) + d.x && y == old(y) + d.y;
      ClampPosition();
    }

    /** The direction chain of update: moves by the displacement the held flags select, without clamping. */
    method Move(moveSpeed: real)
      requires WellFormed()
      modifies this`x, this`y
      ensures var d := Displacement(keys["up"], keys["down"], keys["left"], keys["right"], moveSpeed);
              x == old(x) + d.x && y == old(y) + d.y
    {
      var up, down, left, right := keys["up"], keys["down"], keys["left"], keys["right"];
      if up && left {
        x := x - moveSpeed * DIAGONAL;
        y := y - moveSpeed * DIAGONAL;
      } else if up && right {
        x := x + moveSpeed * DIAGONAL;
        y := y - moveSpeed * DIAGONAL;
      } else if down && left {
        x := x - moveSpeed * DIAGONAL;
        y := y + moveSpeed * DIAGONAL;
      } else if down && right {
        x := x + moveSpeed * DIAGONAL;
        y := y + moveSpeed * DIAGONAL;
      } else {
        if up {
          y := y - moveSpeed;
        }
        if down {
          y := y + moveSpeed;
        }
        if left {
          x := x - moveSpeed;
        }
        if right {
          x := x + moveSpeed;
        }
      }
    }

    /** Clamps each coordinate to the bounds that are set; keys, zoom and bounds are untouched. */
    method ClampPosition()
      requires WellFormed()
      modifies this`x, this`y
      ensures Valid()
      ensures x == ClampAxis(old(x), minX, maxX) && y == ClampAxis(old(y), minY, maxY)
      ensures old(Clamped()) ==> x == old(x) && y == old(y)
    {
      if minX.Some? {
        x := MaxR(minX.value, x);
      }
      if maxX.Some? {
        x := MinR(maxX.value, x);
      }
      if minY.Some? {
        y := MaxR(minY.value, y);
      }
      if maxY.Some? {
        y := MinR(maxY.value, y);
      }
      ClampAxisIdempotent(old(x), minX, maxX);
      ClampAxisIdempotent(old(y), minY, maxY);
    }

    /** Records whether a direction is held; a name outside the four directions changes nothing. */
    method SetKey(direction: string, pressed: bool)
      requires WellFormed()
      modifies this`keys
      ensures WellFormed() && (old(Valid()) ==> Valid())
      ensures direction in DIRECTIONS ==> keys == old(keys)[direction := pressed]
      ensures direction !in DIRECTIONS ==> keys == old(keys)
    {
      if direction in keys {
        keys := keys[direction := pressed];
      }
    }

    /** The position; under consistent bounds it satisfies them. */
    function GetPosition(): (p: Point)
      reads this
      ensures p.x == x && p.y == y
      ensures Valid() && Consistent(minX, maxX) ==> InBounds(p.x, minX, maxX)
      ensures Valid() && Consistent(minY, maxY) ==> InBounds(p.y, minY, maxY)
    {
      Point(x, y)
    }

    /** Moves to (newX, newY) and clamps. */
    method SetPosition(newX: real, newY: real)
      requires WellFormed()
      modifies this`x, this`y
      ensures Valid()
      ensures x == ClampAxis(newX, minX, maxX) && y == ClampAxis(newY, minY, maxY)
    {
      x := newX;
      y := newY;
      ClampPosition();
    }

    /** Replaces all four bounds, then clamps the current position to them. */
    method SetBounds(newMinX: Option<real>, newMaxX: Option<real>, newMinY: Option<real>, newMaxY: Option<real>)
      requires WellFormed()
      modifies this`minX, this`maxX, this`minY, this`maxY, this`x, this`y
      ensures Valid()
      ensures minX == newMinX && maxX == newMaxX && minY == newMinY && maxY == newMaxY
      ensures x == ClampAxis(old(x), newMinX, newMaxX) && y == ClampAxis(old(y), newMinY, newMaxY)
    {
      minX := newMinX;
      maxX := newMaxX;
      minY := newMinY;
      maxY := newMaxY;
      ClampPosition();
    }

    /** The zoom level, always one of 0, 1, 2. */
    function GetZoom(): (level: int)
      reads this
      ensures level == zoom
      ensures WellFormed() ==> 0 <= level <= MAX_ZOOM
    {
      zoom
    }

    /** Sets the zoom to the floor of the request, clamped to the valid levels. */
    method SetZoom(requested: real)
      requires WellFormed()
      modifies this`zoom
      ensures WellFormed() && (old(Valid()) ==> Valid())
      ensures zoom == ClampZoom(requested)
    {
      zoom := ClampZoom(requested);
    }

    /** One level closer, saturating at the closest level. */
    method ZoomIn()
      requires WellFormed()
      modifies this`zoom
      ensures WellFormed() && (old(Valid()) ==> Valid())
      ensures zoom == ZoomedIn(old(zoom))
    {
      if zoom < MAX_ZOOM {
        zoom := zoom + 1;
      }
    }

    /** One level farther, saturating at the farthest level. */
    method ZoomOut()
      requires WellFormed()
      modifies this`zoom
      ensures WellFormed() && (old(Valid()) ==> Valid())
      ensures zoom == ZoomedOut(old(zoom))
    {
      if zoom > 0 {
        zoom := zoom - 1;
      }
    }
  }
}
