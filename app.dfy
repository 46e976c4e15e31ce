/**
 * The city driver: the session state (grid, statistics, selected tool,
 * pause flag), the placement command issued by a tile click, and the timer
 * that runs one simulation step when the game is not paused.
 */
module CityApp {
  import opened CityTypes
  import opened CityConstants
  import opened Simulation
  import opened SimulationLemmas

  /** The result of a click: the grid and funds afterwards, and whether the tool was applied. */
  datatype Placement = Placement(grid: Grid, funds: int, success: bool)

  /** Road and Power are placed at level 0, buildings at level 1. */
  function InitialLevel(z: ZoneType): int {
    if z == ZoneType.Road || z == ZoneType.Power then 0 else 1
  }

  /**
   * Applying `tool` at (x, y) with `funds` available, at time `now`. It is
   * refused when the funds are below the tool's cost, and a non-Bulldoze
   * tool is refused on any tile that is not Empty, whether of another zone
   * type or already of the tool's own. Otherwise only the tile at (x, y) is
   * rewritten and exactly the cost is charged.
   */
  function ApplyTool(g: Grid, x: int, y: int, tool: Tool, funds: int, now: int): (p: Placement)
    requires IsGrid(g) && InBounds(x, y)
  {
    var tile := g[x][y];
    var cost := ToolCost(tool);
    if funds < cost then Placement(g, funds, false)
    else if tool == Tool.Bulldoze then
      Placement(g[x := g[x][y := tile.(zone := ZoneType.Empty, level := 0, updatedAt := now)]], funds - cost, true)
    else if tile.zone != ZoneType.Empty && tile.zone != ToolZone(tool) then
      Placement(g, funds, false)   // cannot build over another zone type
    else if tile.zone != ZoneType.Empty && tile.zone == ToolZone(tool) then
      Placement(g, funds, false)   // already of this zone type
    else
      var z := ToolZone(tool);
      Placement(g[x := g[x][y := tile.(zone := z, level := InitialLevel(z), updatedAt := now)]], funds - cost, true)
  }

  // ---------------------------------------------------------------- properties of a placement

  /** A placement succeeds exactly when the funds cover the cost and the tool is Bulldoze or the tile is Empty. */
  lemma ApplyToolSucceedsIff(g: Grid, x: int, y: int, tool: Tool, funds: int, now: int)
    requires IsGrid(g) && InBounds(x, y)
    ensures ApplyTool(g, x, y, tool, funds, now).success <==>
              funds >= ToolCost(tool) && (tool == Tool.Bulldoze || g[x][y].zone == ZoneType.Empty)
  {
  }

  /** A refused placement changes neither the grid nor the funds. */
  lemma ApplyToolRefusalChangesNothing(g: Grid, x: int, y: int, tool: Tool, funds: int, now: int)
    requires IsGrid(g) && InBounds(x, y)
    requires funds < ToolCost(tool) || (tool != Tool.Bulldoze && g[x][y].zone != ZoneType.Empty)
    ensures ApplyTool(g, x, y, tool, funds, now) == Placement(g, funds, false)
  {
  }

  /**
   * A successful placement rewrites only the tile at (x, y), keeps its
   * coordinates, stamps it with `now` and charges exactly the tool's cost,
   * so funds stay non-negative.
   */
  lemma ApplyToolTouchesOnlyTarget(g: Grid, x: int, y: int, tool: Tool, funds: int, now: int)
    requires IsGrid(g) && InBounds(x, y)
    ensures var p := ApplyTool(g, x, y, tool, funds, now);
            p.success ==>
              && IsGrid(p.grid)
              && (forall i, j :: InBounds(i, j) && (i != x || j != y) ==> p.grid[i][j] == g[i][j])
              && p.grid[x][y].x == g[x][y].x && p.grid[x][y].y == g[x][y].y && p.grid[x][y].updatedAt == now
              && p.funds == funds - ToolCost(tool) >= 0
  {
  }

  /** Bulldoze, when affordable, leaves an Empty level-0 tile, whatever was there, and is charged even on an Empty tile. */
  lemma BulldozeClears(g: Grid, x: int, y: int, funds: int, now: int)
    requires IsGrid(g) && InBounds(x, y) && funds >= ToolCost(Tool.Bulldoze)
    ensures var p := ApplyTool(g, x, y, Tool.Bulldoze, funds, now);
            p.success && p.grid[x][y].zone == ZoneType.Empty && p.grid[x][y].level == 0
            && p.funds == funds - 5
  {
  }

  /** A zone tool on an affordable Empty tile places its zone type, Road and Power at level 0, buildings at level 1. */
  lemma PlaceOnEmpty(g: Grid, x: int, y: int, tool: Tool, funds: int, now: int)
    requires IsGrid(g) && InBounds(x, y) && tool != Tool.Bulldoze
    requires g[x][y].zone == ZoneType.Empty && funds >= ToolCost(tool)
    ensures var p := ApplyTool(g, x, y, tool, funds, now);
            p.success && p.grid[x][y].zone == ToolZone(tool)
            && p.grid[x][y].level == (if tool == Tool.Road || tool == Tool.Power then 0 else 1)
  {
  }

  /** The same zone tool applied twice to an Empty tile succeeds once and is then refused at no cost. */
  lemma PlaceTwice(g: Grid, x: int, y: int, tool: Tool, funds: int, now1: int, now2: int)
    requires IsGrid(g) && InBounds(x, y) && tool != Tool.Bulldoze
    requires g[x][y].zone == ZoneType.Empty && funds >= ToolCost(tool)
    ensures var p1 := ApplyTool(g, x, y, tool, funds, now1);
            && p1.success && IsGrid(p1.grid)
            && ApplyTool(p1.grid, x, y, tool, p1.funds, now2) == Placement(p1.grid, p1.funds, false)
  {
  }

  /** A placement keeps the grid well-formed. */
  lemma ApplyToolPreservesWellFormed(g: Grid, x: int, y: int, tool: Tool, funds: int, now: int)
    requires WellFormedGrid(g) && InBounds(x, y)
    ensures WellFormedGrid(ApplyTool(g, x, y, tool, funds, now).grid)
  {
    var p := ApplyTool(g, x, y, tool, funds, now);
    forall i, j | InBounds(i, j)
      ensures WellFormedTile(p.grid[i][j], i, j)
    {
      assert WellFormedTile(g[i][j], i, j);
    }
  }

  // ---------------------------------------------------------------- scenarios

  /**
   * On an all-Empty grid with the initial funds: a Road at (5, 5) costs 10, a
   * Residential zone at (5, 6) costs 50 and starts at level 1; a step whose
   * draws all succeed raises it to level 2, giving population 4, income 2,
   * funds 4942 and day 2.
   */
  lemma FirstDayScenario(g0: Grid, t1: int, t2: int)
    requires IsGrid(g0)
    requires forall x, y :: InBounds(x, y) ==> g0[x][y] == Tile(x, y, ZoneType.Empty, 0, 0)
    ensures var p1 := ApplyTool(g0, 5, 5, Tool.Road, INITIAL_FUNDS, t1);
            p1.success && p1.funds == 4990 && IsGrid(p1.grid)
            && var p2 := ApplyTool(p1.grid, 5, 6, Tool.Residential, p1.funds, t2);
            p2.success && p2.funds == 4940 && IsGrid(p2.grid) && p2.grid[5][6].level == 1
            && var h := StepGrid(p2.grid, (k: nat) => 0.99);
            h[5][6].level == 2
            && StepStats(CityStats(population := 0, funds := p2.funds, day := 1, income := 0), h)
               == CityStats(population := 4, funds := 4942, day := 2, income := 2)
  {
    var p1 := ApplyTool(g0, 5, 5, Tool.Road, INITIAL_FUNDS, t1);
    var p2 := ApplyTool(p1.grid, 5, 6, Tool.Residential, p1.funds, t2);
    var g: Grid := p2.grid;
    var random: nat -> Random := (k: nat) => 0.99;
    var h: Grid := StepGrid(g, random);
    assert g[5][5].zone == ZoneType.Road;
    RoadAccessMeans(g, 5, 6);
    assert Adjacent(5, 6, 5, 5);
    assert HasRoadAccess(g, 5, 6);
    StepGridAt(g, random, 5, 6);
    assert h[5][6].level == 2;
    StepKeepsIdentity(g, random);
    forall i, j | 0 <= i < |h| && 0 <= j < |h[i]|
      ensures h[i][j].zone == (if i == 5 && j == 6 then ZoneType.Residential
                               else if i == 5 && j == 5 then ZoneType.Road else ZoneType.Empty)
    {
      assert InBounds(i, j);
    }
    GridLevelsSingle(h, 5, 6, ZoneType.Residential);
    GridLevelsWithout(h, ZoneType.Commercial);
    GridLevelsWithout(h, ZoneType.Industrial);
  }

  /** A level-3 Residential tile with no Road neighbour, under draws that all succeed, decays to level 2. */
  lemma DecayScenario(g: Grid, x: int, y: int, random: nat -> Random)
    requires IsGrid(g) && InBounds(x, y)
    requires g[x][y].zone == ZoneType.Residential && g[x][y].level == 3
    requires forall nx, ny :: InBounds(nx, ny) && Adjacent(x, y, nx, ny) ==> g[nx][ny].zone != ZoneType.Road
    requires forall k :: random(k) > RESIDENTIAL_DECAY
    ensures StepGrid(g, random)[x][y].level == 2
  {
    RoadAccessMeans(g, x, y);
    StepGridAt(g, random, x, y);
  }

  /** A Commercial zone (cost 100) clicked at (0, 0) with 50 in funds is refused and changes nothing. */
  lemma InsufficientFundsScenario(g: Grid, now: int)
    requires IsGrid(g)
    ensures ApplyTool(g, 0, 0, Tool.Commercial, 50, now) == Placement(g, 50, false)
  {
  }

  // ---------------------------------------------------------------- the driver

  /**
   * A fresh copy of `current` whose cell (x, y) holds `t`: the new grid the
   * source builds before installing it as the game state.
   */
  method PlaceTile(current: array2<Tile>, x: int, y: int, t: Tile) returns (newGrid: array2<Tile>)
    requires current.Length0 == GRID_SIZE && current.Length1 == GRID_SIZE && InBounds(x, y)
    ensures fresh(newGrid) && newGrid.Length0 == GRID_SIZE && newGrid.Length1 == GRID_SIZE
    ensures Cells(newGrid) == Cells(current)[x := Cells(current)[x][y := t]]
  {
    newGrid := new Tile[GRID_SIZE, GRID_SIZE]((i, j) requires 0 <= i < GRID_SIZE && 0 <= j < GRID_SIZE
      reads current => current[i, j]);
    newGrid[x, y] := t;
    forall i | 0 <= i < GRID_SIZE
      ensures Cells(newGrid)[i] == Cells(current)[x := Cells(current)[x][y := t]][i]
    {
    }
  }

  /** The session state of the city toy. */
  class App {
    var grid: array2<Tile>
    var stats: CityStats
    var selectedTool: Tool
    var paused: bool

    /** The grid has the configured shape and is well-formed; funds never fall below 0. */
    ghost predicate Valid()
      reads this, grid
    {
      && grid.Length0 == GRID_SIZE && grid.Length1 == GRID_SIZE
      && WellFormedGrid(Cells(grid))
      && stats.funds >= 0 && stats.day >= 1 && stats.population >= 0 && stats.income >= 0
    }

    /** A new session: an all-Empty grid, the initial funds on day 1, the Road tool selected, running. */
    constructor ()
      ensures Valid() && fresh(grid)
      ensures forall x, y :: InBounds(x, y) ==> grid[x, y] == Tile(x, y, ZoneType.Empty, 0, 0)
      ensures stats == CityStats(population := 0, funds := INITIAL_FUNDS, day := 1, income := 0)
      ensures selectedTool == Tool.Road && !paused
    {
      var initial := CreateInitialGrid();
      grid := initial;
      stats := CityStats(population := 0, funds := INITIAL_FUNDS, day := 1, income := 0);
      selectedTool := Tool.Road;
      paused := false;
    }

    method SelectTool(tool: Tool)
      modifies this`selectedTool
      ensures selectedTool == tool
    {
      selectedTool := tool;
    }

    method TogglePause()
      modifies this`paused
      ensures paused == !old(paused)
    {
      paused := !paused;
    }

    /**
     * The timer of the simulation loop: while paused nothing happens;
     * otherwise one step replaces the grid and the statistics.
     */
    method Tick(random: nat -> Random)
      requires Valid()
      modifies this`grid, this`stats
      ensures Valid()
      ensures old(paused) ==> grid == old(grid) && stats == old(stats)
      ensures !old(paused) ==> fresh(grid) && Cells(grid) == StepGrid(old(Cells(grid)), random)
                               && stats == StepStats(old(stats), Cells(grid))
    {
      if paused {
        return;
      }
      ghost var g := Cells(grid);
      var newGrid, newStats := RunSimulationStep(grid, stats, random);
      StepPreservesWellFormed(g, random);
      StepStatsFacts(g, random, stats);
      grid, stats := newGrid, newStats;
    }

    /**
     * A click on tile (x, y) with the selected tool at time `now`: applies
     * ApplyTool, storing a new grid and charging the cost on success and
     * leaving everything as it was otherwise.
     */
    method HandleTileClick(x: int, y: int, now: int)
      requires Valid() && InBounds(x, y)
      modifies this`grid, this`stats
      ensures Valid()
      ensures var p := ApplyTool(old(Cells(grid)), x, y, selectedTool, old(stats.funds), now);
              && Cells(grid) == p.grid
              && stats == old(stats).(funds := p.funds)
              && (if p.success then fresh(grid) else grid == old(grid))
    {
      ghost var g := Cells(grid);
      ApplyToolPreservesWellFormed(g, x, y, selectedTool, stats.funds, now);
      var tile := grid[x, y];
      var cost := ToolCost(selectedTool);
      ghost var p := ApplyTool(g, x, y, selectedTool, stats.funds, now);

      if stats.funds < cost {
        assert p.grid == g;
        return;  // the source alerts "Insufficient funds!"
      }

      var newType, newLevel := tile.zone, tile.level;
      if selectedTool == Tool.Bulldoze {
        newType, newLevel := ZoneType.Empty, 0;
      } else {
        if tile.zone != ZoneType.Empty && tile.zone != ToolZone(selectedTool) {
          assert p.grid == g;
          return;  // cannot build over another zone type
        }
        if tile.zone != ZoneType.Empty && tile.zone == ToolZone(selectedTool) {
          assert p.grid == g;
          return;  // already of this zone type
        }
        newType := ToolZone(selectedTool);
        newLevel := if newType == ZoneType.Road || newType == ZoneType.Power then 0 else 1;
      }

      var newGrid := PlaceTile(grid, x, y, tile.(zone := newType, level := newLevel, updatedAt := now));
      grid := newGrid;
      stats := stats.(funds := stats.funds - cost);
    }
  }
}
