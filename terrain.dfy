/**
 * The traversability grid the cost model queries. The grid object itself
 * (envire::TraversabilityGrid) is not part of this model: it is reduced to
 * its extents, its cell scale and its class-to-driveability lookup. The cell
 * data (TravData) is a separate, shared snapshot of class values indexed
 * [row][column].
 */
module Terrain {
  import opened Wrappers

  /** Grid cell sizes are strictly positive. */
  type PosReal = r: real | r > 0.0 witness 1.0

  datatype TravGrid = TravGrid(
    cellSizeX: nat,                 // number of columns
    cellSizeY: nat,                 // number of rows
    scaleX: PosReal,                // metres per cell
    drivabilityOf: nat -> real)     // getTraversabilityClass(c).getDrivability()

  /** Class values of the cells, row-major: data[y][x]. */
  type TravData = seq<seq<nat>>

  /** The snapshot has one row per grid row and one entry per grid column. */
  predicate DataFits(grid: TravGrid, data: TravData) {
    |data| == grid.cellSizeY &&
    forall row :: 0 <= row < |data| ==> |data[row]| == grid.cellSizeX
  }

  /**
   * The two handles an objective holds are usable together: whenever a grid
   * is attached, a snapshot of its dimensions is attached too.
   */
  predicate WellPaired(grid: Option<TravGrid>, data: Option<TravData>) {
    grid.Some? ==> data.Some? && DataFits(grid.value, data.value)
  }

  /** Half-open bounds [0, cellSizeX) x [0, cellSizeY) on continuous coordinates. */
  predicate InGrid(grid: TravGrid, x: real, y: real): (b: bool)
    ensures b ==> grid.cellSizeX > 0 && grid.cellSizeY > 0
  {
    0.0 <= x < grid.cellSizeX as real && 0.0 <= y < grid.cellSizeY as real
  }

  /** Truncation of a non-negative coordinate to a cell index. */
  function CellIndex(v: real, size: nat): (i: nat)
    requires 0.0 <= v < size as real
    ensures i < size
    ensures i as real <= v < i as real + 1.0
  {
    v.Floor
  }

  /**
   * The class value of the cell under (x, y): row y, column x, both truncated
   * toward zero.
   */
  function CellClass(grid: TravGrid, data: TravData, x: real, y: real): (c: nat)
    requires DataFits(grid, data) && InGrid(grid, x, y)
    ensures exists row: nat, col: nat :: row < |data| && col < |data[row]| && data[row][col] == c &&
              row as real <= y < row as real + 1.0 && col as real <= x < col as real + 1.0
  {
    data[CellIndex(y, grid.cellSizeY)][CellIndex(x, grid.cellSizeX)]
  }
}
