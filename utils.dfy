/**
 * The coordinate helpers of utils.js. World positions are modelled as exact
 * reals (no IEEE rounding); grid cells are integer pairs.
 */
module Utils {

  /** A world-space point: `x` and `z` span the ground plane, `y` is elevation. */
  datatype Vec3 = Vec3(x: real, y: real, z: real)

  /** A grid cell; `y` is the cell row, which lies along the world `z` axis. */
  datatype Cell = Cell(x: int, y: int)

  /**
   * JavaScript's `Math.round`: the nearest integer, halves going towards
   * positive infinity (so -2.5 rounds to -2).
   */
  function Round(v: real): (n: int)
    ensures n as real - 0.5 <= v < n as real + 0.5
  {
    (v + 0.5).Floor
  }

  /** Integers are their own rounding. */
  lemma RoundOfInteger(n: int)
    ensures Round(n as real) == n
  {
  }

  /** `Utils.worldToGrid`: the cell nearest to the point on the ground plane; elevation is dropped. */
  function WorldToGrid(p: Vec3): (c: Cell)
    ensures c.x as real - 0.5 <= p.x < c.x as real + 0.5
    ensures c.y as real - 0.5 <= p.z < c.y as real + 0.5
  {
    Cell(Round(p.x), Round(p.z))
  }

  /** `Utils.gridToWorld`: the world point of a cell at the given elevation (0 unless given). */
  function GridToWorld(gridX: int, gridY: int, elevation: real := 0.0): (p: Vec3)
    ensures p.y == elevation
    ensures p.x == p.x.Floor as real && p.z == p.z.Floor as real
  {
    Vec3(gridX as real, elevation, gridY as real)
  }

  /** Elevation never affects the cell a point maps to. */
  lemma WorldToGridIgnoresElevation(p: Vec3, elevation: real)
    ensures WorldToGrid(p.(y := elevation)) == WorldToGrid(p)
  {
  }

  /** Round trip: every integer cell, lifted to any elevation, maps back to itself. */
  lemma GridRoundTrip(x: int, y: int, elevation: real)
    ensures WorldToGrid(GridToWorld(x, y, elevation)) == Cell(x, y)
    ensures WorldToGrid(GridToWorld(x, y)) == Cell(x, y)
  {
    RoundOfInteger(x);
    RoundOfInteger(y);
  }

  /** A point is the lift of its own cell exactly when it lies on the lattice, at its own elevation. */
  lemma LiftOfCellIsPoint(p: Vec3)
    ensures GridToWorld(WorldToGrid(p).x, WorldToGrid(p).y, p.y) == p <==>
            p.x == p.x.Floor as real && p.z == p.z.Floor as real
  {
    if p.x == p.x.Floor as real && p.z == p.z.Floor as real {
      RoundOfInteger(p.x.Floor);
      RoundOfInteger(p.z.Floor);
    }
  }

  /**
   * `Utils.randomInt(min, max)` with the value of `Math.random()` passed in as
   * `r`: `floor(r * (max - min + 1)) + min`.
   */
  function RandomInt(min: int, max: int, r: real): (n: int)
    ensures min <= max && 0.0 <= r < 1.0 ==> min <= n <= max
  {
    var width := (max - min + 1) as real;
    var k := (r * width).Floor;
    if min <= max && 0.0 <= r < 1.0 then
      ScaleBelow(r, width);
      assert k as real <= r * width < width;
      assert k < max - min + 1;
      k + min
    else
      k + min
  }

  /** Scaling a draw from [0, 1) by a positive width lands in [0, width). */
  lemma ScaleBelow(r: real, width: real)
    requires 0.0 <= r < 1.0 && 0.0 < width
    ensures 0.0 <= r * width < width
  {
    var gap := (1.0 - r) * width;
    assert gap > 0.0;
    assert width - r * width == gap;
  }

  /** A one-value range always yields that value, whatever the draw. */
  lemma RandomIntSingleton(m: int, r: real)
    requires 0.0 <= r < 1.0
    ensures RandomInt(m, m, r) == m
  {
  }

  /** `Math.floor(Math.random() * n)`, the list-index idiom, is `randomInt(0, n - 1)`. */
  lemma RandomIndex(n: nat, r: real)
    requires 0 < n && 0.0 <= r < 1.0
    ensures RandomInt(0, n - 1, r) == (r * n as real).Floor
    ensures 0 <= RandomInt(0, n - 1, r) < n
  {
  }

}
