/**
 * The city-growth tick engine: building the initial grid, the orthogonal
 * neighbourhood of a cell, and one simulation step (growth, decay and the
 * fresh population and income sums).
 *
 * Grids are held in `array2<Tile>` by the methods; the specification works
 * on the value view `Cells(a)` of such an array.
 */
module Simulation {
  import opened CityTypes
  import opened CityConstants

  /** A value of the random source (the source's `Math.random()`): a real in [0, 1). */
  type Random = r: real | 0.0 <= r < 1.0

  /** A draw must exceed these thresholds for a tile to change level. */
  const RESIDENTIAL_GROWTH: real := 0.7
  const RESIDENTIAL_DECAY: real := 0.8
  const COMMERCIAL_GROWTH: real := 0.6
  const INDUSTRIAL_GROWTH: real := 0.6

  predicate InBounds(x: int, y: int) {
    0 <= x < GRID_SIZE && 0 <= y < GRID_SIZE
  }

  /** GRID_SIZE rows of GRID_SIZE tiles. */
  predicate IsGrid(g: Grid) {
    |g| == GRID_SIZE && forall x :: 0 <= x < |g| ==> |g[x]| == GRID_SIZE
  }

  /** The value held by a two-dimensional array of tiles, row x at index x. */
  ghost function Cells(a: array2<Tile>): (g: Grid)
    reads a
    ensures |g| == a.Length0
    ensures forall x :: 0 <= x < a.Length0 ==> |g[x]| == a.Length1
    ensures forall x, y :: 0 <= x < a.Length0 && 0 <= y < a.Length1 ==> g[x][y] == a[x, y]
  {
    seq(a.Length0, x requires 0 <= x < a.Length0 reads a =>
      seq(a.Length1, y requires 0 <= y < a.Length1 reads a => a[x, y]))
  }

  /** Every level lies in [MIN_LEVEL, MAX_LEVEL]. */
  ghost predicate LevelsInRange(g: Grid) {
    IsGrid(g) && forall x, y :: InBounds(x, y) ==> LevelInRange(g[x][y])
  }

  /**
   * The invariant the driver's grid keeps: every tile sits at its own
   * coordinates, its level is in range, and only buildings have a level
   * other than 0.
   */
  predicate WellFormedTile(t: Tile, x: int, y: int) {
    t.x == x && t.y == y && LevelInRange(t) && (!IsBuilding(t.zone) ==> t.level == 0)
  }

  ghost predicate WellFormedGrid(g: Grid) {
    IsGrid(g) && forall x, y :: InBounds(x, y) ==> WellFormedTile(g[x][y], x, y)
  }

  /** Builds the grid of a new session: every tile Empty, level 0, timestamp 0. */
  method CreateInitialGrid() returns (grid: array2<Tile>)
    ensures fresh(grid)
    ensures grid.Length0 == GRID_SIZE && grid.Length1 == GRID_SIZE
    ensures forall x, y :: InBounds(x, y) ==> grid[x, y] == Tile(x, y, ZoneType.Empty, 0, 0)
    ensures WellFormedGrid(Cells(grid))
  {
    grid := new Tile[GRID_SIZE, GRID_SIZE];
    for x := 0 to GRID_SIZE
      invariant forall i, j :: 0 <= i < x && 0 <= j < GRID_SIZE ==> grid[i, j] == Tile(i, j, ZoneType.Empty, 0, 0)
    {
      for y := 0 to GRID_SIZE
        invariant forall i, j :: 0 <= i < x && 0 <= j < GRID_SIZE ==> grid[i, j] == Tile(i, j, ZoneType.Empty, 0, 0)
        invariant forall j :: 0 <= j < y ==> grid[x, j] == Tile(x, j, ZoneType.Empty, 0, 0)
      {
        grid[x, y] := Tile(x, y, ZoneType.Empty, 0, 0);
      }
    }
  }

  // ---------------------------------------------------------------- neighbours

  /** The four directions, in the order the source tries them. */
  const DIRECTIONS: seq<(int, int)> := [(0, 1), (0, -1), (1, 0), (-1, 0)]

  /** Two cells one step apart horizontally or vertically. */
  predicate Adjacent(x: int, y: int, nx: int, ny: int) {
    (nx == x && (ny == y + 1 || ny == y - 1)) || (ny == y && (nx == x + 1 || nx == x - 1))
  }

  predicate AllInBounds(cs: seq<(int, int)>) {
    forall i :: 0 <= i < |cs| ==> InBounds(cs[i].0, cs[i].1)
  }

  /** The in-bounds cells reached by the first k directions from (x, y), in order. */
  function NeighborCoordsUpTo(x: int, y: int, k: nat): (cs: seq<(int, int)>)
    requires k <= |DIRECTIONS|
    ensures |cs| <= k
    ensures AllInBounds(cs)
    ensures forall i :: 0 <= i < |cs| ==> Adjacent(x, y, cs[i].0, cs[i].1)
  {
    if k == 0 then []
    else
      var nx, ny := x + DIRECTIONS[k - 1].0, y + DIRECTIONS[k - 1].1;
      NeighborCoordsUpTo(x, y, k - 1) + (if InBounds(nx, ny) then [(nx, ny)] else [])
  }

  /** The coordinates of the von Neumann neighbourhood of (x, y), without wraparound. */
  function NeighborCoords(x: int, y: int): seq<(int, int)> {
    NeighborCoordsUpTo(x, y, |DIRECTIONS|)
  }

  /** The tiles at the given coordinates, in order. */
  function TilesAt(g: Grid, cs: seq<(int, int)>): (ts: seq<Tile>)
    requires IsGrid(g) && AllInBounds(cs)
  {
    seq(|cs|, i requires 0 <= i < |cs| => g[cs[i].0][cs[i].1])
  }

  /** The in-bounds orthogonal neighbours of (x, y) (the source's getNeighbors). */
  function Neighbors(g: Grid, x: int, y: int): seq<Tile>
    requires IsGrid(g)
  {
    TilesAt(g, NeighborCoords(x, y))
  }

  lemma TilesAtSnoc(g: Grid, cs: seq<(int, int)>, c: (int, int))
    requires IsGrid(g) && AllInBounds(cs) && InBounds(c.0, c.1)
    ensures AllInBounds(cs + [c])
    ensures TilesAt(g, cs + [c]) == TilesAt(g, cs) + [g[c.0][c.1]]
  {
  }

  /** Collects the in-bounds orthogonal neighbours of (x, y). */
  method GetNeighbors(grid: array2<Tile>, x: int, y: int) returns (neighbors: seq<Tile>)
    requires grid.Length0 == GRID_SIZE && grid.Length1 == GRID_SIZE
    ensures IsGrid(Cells(grid)) && neighbors == Neighbors(Cells(grid), x, y)
  {
    ghost var g := Cells(grid);
    neighbors := [];
    for k := 0 to |DIRECTIONS|
      invariant neighbors == TilesAt(g, NeighborCoordsUpTo(x, y, k))
    {
      var nx, ny := x + DIRECTIONS[k].0, y + DIRECTIONS[k].1;
      if nx >= 0 && nx < GRID_SIZE && ny >= 0 && ny < GRID_SIZE {
        TilesAtSnoc(g, NeighborCoordsUpTo(x, y, k), (nx, ny));
        neighbors := neighbors + [grid[nx, ny]];
      }
    }
  }

  /** Some tile of the list has zone type z (the source's `neighbors.some(...)`). */
  predicate SomeZone(ts: seq<Tile>, z: ZoneType) {
    exists i :: 0 <= i < |ts| && ts[i].zone == z
  }

  /** Some tile of the list is Residential with a level above 0. */
  predicate SomeDevelopedResidential(ts: seq<Tile>) {
    exists i :: 0 <= i < |ts| && ts[i].zone == ZoneType.Residential && ts[i].level > 0
  }

  /** RoadAccess: an orthogonal neighbour is a Road. */
  predicate HasRoadAccess(g: Grid, x: int, y: int)
    requires IsGrid(g)
  {
    SomeZone(Neighbors(g, x, y), ZoneType.Road)
  }

  /** NearResidential: an orthogonal neighbour is Residential with level above 0. */
  predicate NearResidential(g: Grid, x: int, y: int)
    requires IsGrid(g)
  {
    SomeDevelopedResidential(Neighbors(g, x, y))
  }

  // ---------------------------------------------------------------- one step

  /**
   * Whether the tile at (x, y) takes a value from the random source during a
   * step: a Residential tile always does, a Commercial tile when it has road
   * access and a developed Residential neighbour, an Industrial tile when it
   * has road access; all other tiles never do.
   */
  predicate DrawsRandom(g: Grid, x: int, y: int)
    requires IsGrid(g) && InBounds(x, y)
  {
    match g[x][y].zone
    case Residential => true
    case Commercial => HasRoadAccess(g, x, y) && NearResidential(g, x, y)
    case Industrial => HasRoadAccess(g, x, y)
    case _ => false
  }

  /** The tile at (x, y) after a step, given the draw r it takes (ignored when it takes none). */
  function NextTile(g: Grid, x: int, y: int, r: Random): Tile
    requires IsGrid(g) && InBounds(x, y)
  {
    var t := g[x][y];
    match t.zone
    case Residential =>
      if HasRoadAccess(g, x, y) then
        (if r > RESIDENTIAL_GROWTH && t.level < MAX_LEVEL then t.(level := t.level + 1) else t)
      else
        (if r > RESIDENTIAL_DECAY && t.level > MIN_LEVEL then t.(level := t.level - 1) else t)
    case Commercial =>
      if HasRoadAccess(g, x, y) && NearResidential(g, x, y) && r > COMMERCIAL_GROWTH && t.level < MAX_LEVEL
      then t.(level := t.level + 1) else t
    case Industrial =>
      if HasRoadAccess(g, x, y) && r > INDUSTRIAL_GROWTH && t.level < MAX_LEVEL
      then t.(level := t.level + 1) else t
    case _ => t
  }

  /** How many of the tiles (x, 0) .. (x, y - 1) take a draw. */
  function RowDraws(g: Grid, x: int, y: int): nat
    requires IsGrid(g) && 0 <= x < GRID_SIZE && 0 <= y <= GRID_SIZE
  {
    if y == 0 then 0 else RowDraws(g, x, y - 1) + (if DrawsRandom(g, x, y - 1) then 1 else 0)
  }

  /** How many of the tiles in rows 0 .. x - 1 take a draw. */
  function RowsDraws(g: Grid, x: int): nat
    requires IsGrid(g) && 0 <= x <= GRID_SIZE
  {
    if x == 0 then 0 else RowsDraws(g, x - 1) + RowDraws(g, x - 1, GRID_SIZE)
  }

  /**
   * The position in the random stream of the draw of tile (x, y): the number
   * of draws taken before it in the scan, x outer and y inner.
   */
  function DrawIndex(g: Grid, x: int, y: int): nat
    requires IsGrid(g) && 0 <= x < GRID_SIZE && 0 <= y <= GRID_SIZE
  {
    RowsDraws(g, x) + RowDraws(g, x, y)
  }

  /**
   * The grid after one step: every tile is computed from the pre-step grid
   * and its own draw, `random(k)` being the k-th value the step takes.
   */
  function StepGrid(g: Grid, random: nat -> Random): (h: Grid)
    requires IsGrid(g)
    ensures IsGrid(h)
  {
    seq(GRID_SIZE, x requires 0 <= x < GRID_SIZE =>
      seq(GRID_SIZE, y requires 0 <= y < GRID_SIZE => NextTile(g, x, y, random(DrawIndex(g, x, y)))))
  }

  // ---------------------------------------------------------------- statistics

  /** The sum of the levels of the tiles of zone type z in a row. */
  function RowLevels(row: seq<Tile>, z: ZoneType): int {
    if row == [] then 0
    else RowLevels(row[..|row| - 1], z) + (if row[|row| - 1].zone == z then row[|row| - 1].level else 0)
  }

  /** The sum of the levels of the tiles of zone type z in a grid. */
  function GridLevels(g: Grid, z: ZoneType): int {
    if g == [] then 0 else GridLevels(g[..|g| - 1], z) + RowLevels(g[|g| - 1], z)
  }

  /** Two inhabitants per Residential level. */
  function Population(g: Grid): int {
    2 * GridLevels(g, ZoneType.Residential)
  }

  /** Income of a row: 1 per Residential, 3 per Commercial and 2 per Industrial level. */
  function RowIncome(row: seq<Tile>): int {
    RowLevels(row, ZoneType.Residential) + 3 * RowLevels(row, ZoneType.Commercial)
      + 2 * RowLevels(row, ZoneType.Industrial)
  }

  /** Income of a grid: 1 per Residential, 3 per Commercial and 2 per Industrial level. */
  function Income(g: Grid): int {
    GridLevels(g, ZoneType.Residential) + 3 * GridLevels(g, ZoneType.Commercial)
      + 2 * GridLevels(g, ZoneType.Industrial)
  }

  /**
   * The statistics after a step that produced grid h: population and income
   * are fresh sums over h, the day advances by one and this step's income is
   * added to the funds.
   */
  function StepStats(s: CityStats, h: Grid): CityStats {
    CityStats(population := Population(h), funds := s.funds + Income(h), day := s.day + 1, income := Income(h))
  }

  lemma RowLevelsSnoc(row: seq<Tile>, y: int, z: ZoneType)
    requires 0 <= y < |row|
    ensures RowLevels(row[..y + 1], z) == RowLevels(row[..y], z) + (if row[y].zone == z then row[y].level else 0)
  {
    assert row[..y + 1][..y] == row[..y];
  }

  lemma GridLevelsSnoc(g: Grid, x: int, z: ZoneType)
    requires 0 <= x < |g|
    ensures GridLevels(g[..x + 1], z) == GridLevels(g[..x], z) + RowLevels(g[x], z)
  {
    assert g[..x + 1][..x] == g[..x];
  }

  /**
   * The growth or decay of one tile in a step: reads the tile and its
   * neighbours in the pre-step grid, takes the next value of the random
   * source when the tile's rule calls for one, and returns the new tile and
   * the number of values taken so far.
   */
  method AdvanceTile(currentGrid: array2<Tile>, x: int, y: int, random: nat -> Random, draws: nat)
    returns (tile: Tile, drawsAfter: nat)
    requires currentGrid.Length0 == GRID_SIZE && currentGrid.Length1 == GRID_SIZE && InBounds(x, y)
    ensures IsGrid(Cells(currentGrid))
    ensures tile == NextTile(Cells(currentGrid), x, y, random(draws))
    ensures drawsAfter == draws + (if DrawsRandom(Cells(currentGrid), x, y) then 1 else 0)
  {
    tile := currentGrid[x, y];
    drawsAfter := draws;
    var neighbors := GetNeighbors(currentGrid, x, y);
    var hasRoadAccess := SomeZone(neighbors, ZoneType.Road);

    if tile.zone == ZoneType.Residential {
      var r := random(drawsAfter);
      drawsAfter := drawsAfter + 1;
      if hasRoadAccess {
        if r > RESIDENTIAL_GROWTH && tile.level < MAX_LEVEL {
          tile := tile.(level := tile.level + 1);
        }
      } else {
        if r > RESIDENTIAL_DECAY && tile.level > MIN_LEVEL {
          tile := tile.(level := tile.level - 1);
        }
      }
    }

    if tile.zone == ZoneType.Commercial {
      var nearResidential := SomeDevelopedResidential(neighbors);
      if hasRoadAccess && nearResidential {
        var r := random(drawsAfter);
        drawsAfter := drawsAfter + 1;
        if r > COMMERCIAL_GROWTH && tile.level < MAX_LEVEL {
          tile := tile.(level := tile.level + 1);
        }
      }
    }

    if tile.zone == ZoneType.Industrial {
      if hasRoadAccess {
        var r := random(drawsAfter);
        drawsAfter := drawsAfter + 1;
        if r > INDUSTRIAL_GROWTH && tile.level < MAX_LEVEL {
          tile := tile.(level := tile.level + 1);
        }
      }
    }
  }

  /**
   * One row of the scan: advances the tiles (x, 0) .. (x, GRID_SIZE - 1) of
   * the copy in order, adding their yields to the running sums.
   */
  method AdvanceRow(currentGrid: array2<Tile>, newGrid: array2<Tile>, x: int, random: nat -> Random,
                    draws: nat, population: int, income: int)
    returns (drawsAfter: nat, populationAfter: int, incomeAfter: int)
    requires currentGrid.Length0 == GRID_SIZE && currentGrid.Length1 == GRID_SIZE
    requires newGrid.Length0 == GRID_SIZE && newGrid.Length1 == GRID_SIZE && newGrid != currentGrid
    requires 0 <= x < GRID_SIZE && IsGrid(Cells(currentGrid)) && draws == RowsDraws(Cells(currentGrid), x)
    modifies newGrid
    ensures forall i, j :: 0 <= i < GRID_SIZE && i != x && 0 <= j < GRID_SIZE ==> newGrid[i, j] == old(newGrid[i, j])
    ensures forall j :: 0 <= j < GRID_SIZE ==> newGrid[x, j] == StepGrid(Cells(currentGrid), random)[x][j]
    ensures drawsAfter == RowsDraws(Cells(currentGrid), x + 1)
    ensures populationAfter == population + 2 * RowLevels(StepGrid(Cells(currentGrid), random)[x], ZoneType.Residential)
    ensures incomeAfter == income + RowIncome(StepGrid(Cells(currentGrid), random)[x])
  {
    ghost var g := Cells(currentGrid);
    ghost var row := StepGrid(g, random)[x];
    drawsAfter, populationAfter, incomeAfter := draws, population, income;
    for y := 0 to GRID_SIZE
      invariant forall i, j :: 0 <= i < GRID_SIZE && i != x && 0 <= j < GRID_SIZE ==> newGrid[i, j] == old(newGrid[i, j])
      invariant forall j :: 0 <= j < y ==> newGrid[x, j] == row[j]
      invariant drawsAfter == DrawIndex(g, x, y)
      invariant populationAfter == population + 2 * RowLevels(row[..y], ZoneType.Residential)
      invariant incomeAfter == income + RowIncome(row[..y])
    {
      var tile;
      tile, drawsAfter := AdvanceTile(currentGrid, x, y, random, drawsAfter);
      if tile.zone == ZoneType.Residential {
        populationAfter := populationAfter + tile.level * 2;
        incomeAfter := incomeAfter + tile.level * 1;
      }
      if tile.zone == ZoneType.Commercial {
        incomeAfter := incomeAfter + tile.level * 3;
      }
      if tile.zone == ZoneType.Industrial {
        incomeAfter := incomeAfter + tile.level * 2;
      }
      RowLevelsSnoc(row, y, ZoneType.Residential);
      RowLevelsSnoc(row, y, ZoneType.Commercial);
      RowLevelsSnoc(row, y, ZoneType.Industrial);
      newGrid[x, y] := tile;
    }
    assert row[..GRID_SIZE] == row;
  }

  /**
   * Advances the city by one day. The input grid is copied and never
   * modified; every neighbour test reads the input grid, and population and
   * income are summed afresh from the new levels.
   */
  method RunSimulationStep(currentGrid: array2<Tile>, currentStats: CityStats, random: nat -> Random)
    returns (newGrid: array2<Tile>, newStats: CityStats)
    requires currentGrid.Length0 == GRID_SIZE && currentGrid.Length1 == GRID_SIZE
    ensures fresh(newGrid) && newGrid.Length0 == GRID_SIZE && newGrid.Length1 == GRID_SIZE
    ensures IsGrid(Cells(currentGrid)) && Cells(newGrid) == StepGrid(Cells(currentGrid), random)
    ensures newStats == StepStats(currentStats, Cells(newGrid))
  {
    ghost var g := Cells(currentGrid);
    ghost var target := StepGrid(g, random);
    newGrid := new Tile[GRID_SIZE, GRID_SIZE]((i, j) requires 0 <= i < GRID_SIZE && 0 <= j < GRID_SIZE
      reads currentGrid => currentGrid[i, j]);
    var newPopulation, newIncome := 0, 0;
    var draws: nat := 0;  // values taken from the random source so far
    for x := 0 to GRID_SIZE
      invariant forall i, j :: 0 <= i < x && 0 <= j < GRID_SIZE ==> newGrid[i, j] == target[i][j]
      invariant draws == RowsDraws(g, x)
      invariant newPopulation == Population(target[..x])
      invariant newIncome == Income(target[..x])
    {
      draws, newPopulation, newIncome := AdvanceRow(currentGrid, newGrid, x, random, draws, newPopulation, newIncome);
      GridLevelsSnoc(target, x, ZoneType.Residential);
      GridLevelsSnoc(target, x, ZoneType.Commercial);
      GridLevelsSnoc(target, x, ZoneType.Industrial);
    }
    assert target[..GRID_SIZE] == target;
    forall i | 0 <= i < GRID_SIZE
      ensures Cells(newGrid)[i] == target[i]
    {
    }
    newStats := CityStats(population := newPopulation, funds := currentStats.funds + newIncome,
                          day := currentStats.day + 1, income := newIncome);
  }
}
