/** The cell lookup of grid.js: from a ray hit on the ground plane to a grid cell. */
module Grid {
  import opened Wrappers
  import opened Utils

  /** A ray-intersection record; only its hit point is consulted. */
  datatype Intersection = Intersection(point: Vec3)

  /**
   * `GridManager.getGridCoords`: no cell for a missing hit, otherwise the
   * point's `x` and `z` each rounded with `Math.round`.
   */
  function GetGridCoords(hit: Option<Intersection>): (c: Option<Cell>)
    ensures hit.None? <==> c.None?
    ensures c.Some? ==> c.value.x as real - 0.5 <= hit.value.point.x < c.value.x as real + 0.5
    ensures c.Some? ==> c.value.y as real - 0.5 <= hit.value.point.z < c.value.y as real + 0.5
  {
    match hit
    case None => None
    case Some(i) => Some(Cell(Round(i.point.x), Round(i.point.z)))
  }

  /** The height of the hit point plays no part in the cell chosen. */
  lemma GetGridCoordsIgnoresHeight(p: Vec3, height: real)
    ensures GetGridCoords(Some(Intersection(p.(y := height)))) == GetGridCoords(Some(Intersection(p)))
  {
  }

  /** Grid lookup and `Utils.worldToGrid` agree on every hit point. */
  lemma GetGridCoordsIsWorldToGrid(p: Vec3)
    ensures GetGridCoords(Some(Intersection(p))) == Some(WorldToGrid(p))
  {
  }

  /** A hit exactly on a lattice point gives that lattice point back. */
  lemma GetGridCoordsOfLatticePoint(x: int, y: int, height: real)
    ensures GetGridCoords(Some(Intersection(Vec3(x as real, height, y as real)))) == Some(Cell(x, y))
  {
    RoundOfInteger(x);
    RoundOfInteger(y);
  }

}
