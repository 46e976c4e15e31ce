/** Properties of the neighbourhood, of one simulation step and of the statistics. */
module SimulationLemmas {
  import opened CityTypes
  import opened CityConstants
  import opened Simulation

  // ---------------------------------------------------------------- neighbours

  /** The neighbour list written out: the four directions in the source's order, out-of-bounds cells dropped. */
  lemma NeighborCoordsUnfold(x: int, y: int)
    ensures NeighborCoords(x, y) ==
              (if InBounds(x, y + 1) then [(x, y + 1)] else []) + (if InBounds(x, y - 1) then [(x, y - 1)] else [])
              + (if InBounds(x + 1, y) then [(x + 1, y)] else []) + (if InBounds(x - 1, y) then [(x - 1, y)] else [])
  {
    var c1 := NeighborCoordsUpTo(x, y, 1);
    var c2 := NeighborCoordsUpTo(x, y, 2);
    var c3 := NeighborCoordsUpTo(x, y, 3);
    assert c1 == if InBounds(x, y + 1) then [(x, y + 1)] else [];
    assert c2 == c1 + if InBounds(x, y - 1) then [(x, y - 1)] else [];
    assert c3 == c2 + if InBounds(x + 1, y) then [(x + 1, y)] else [];
  }

  /** A cell is listed as a neighbour exactly when it is in bounds and orthogonally adjacent. */
  lemma NeighborCoordsExact(x: int, y: int, nx: int, ny: int)
    ensures (nx, ny) in NeighborCoords(x, y) <==> InBounds(nx, ny) && Adjacent(x, y, nx, ny)
  {
    NeighborCoordsUnfold(x, y);
  }

  /**
   * The neighbourhood of an in-bounds cell loses one cell per grid border it
   * touches, and lists no cell twice.
   */
  lemma NeighborCount(x: int, y: int)
    requires InBounds(x, y)
    ensures |NeighborCoords(x, y)| == (if y + 1 < GRID_SIZE then 1 else 0) + (if y > 0 then 1 else 0)
                                      + (if x + 1 < GRID_SIZE then 1 else 0) + (if x > 0 then 1 else 0)
    ensures forall i, j :: 0 <= i < j < |NeighborCoords(x, y)| ==> NeighborCoords(x, y)[i] != NeighborCoords(x, y)[j]
  {
    NeighborCoordsUnfold(x, y);
  }

  /** A corner has 2 neighbours, any other border cell 3 and an interior cell 4. */
  lemma NeighborCountCases(x: int, y: int)
    requires InBounds(x, y)
    ensures (x == 0 || x == GRID_SIZE - 1) && (y == 0 || y == GRID_SIZE - 1) ==> |NeighborCoords(x, y)| == 2
    ensures (x == 0 || x == GRID_SIZE - 1) != (y == 0 || y == GRID_SIZE - 1) ==> |NeighborCoords(x, y)| == 3
    ensures 0 < x < GRID_SIZE - 1 && 0 < y < GRID_SIZE - 1 ==> |NeighborCoords(x, y)| == 4
  {
    NeighborCount(x, y);
  }

  /**
   * The neighbour tiles of a well-formed grid: at most four, each in bounds
   * and orthogonally adjacent to (x, y), one per listed cell.
   */
  lemma NeighborTiles(g: Grid, x: int, y: int)
    requires WellFormedGrid(g)
    ensures |Neighbors(g, x, y)| == |NeighborCoords(x, y)| <= 4
    ensures forall i :: 0 <= i < |Neighbors(g, x, y)| ==>
              InBounds(Neighbors(g, x, y)[i].x, Neighbors(g, x, y)[i].y)
              && Adjacent(x, y, Neighbors(g, x, y)[i].x, Neighbors(g, x, y)[i].y)
  {
    var cs := NeighborCoords(x, y);
    forall i | 0 <= i < |cs|
      ensures Neighbors(g, x, y)[i].x == cs[i].0 && Neighbors(g, x, y)[i].y == cs[i].1
    {
      assert WellFormedTile(g[cs[i].0][cs[i].1], cs[i].0, cs[i].1);
    }
  }

  /** RoadAccess holds exactly when some in-bounds orthogonal neighbour is a Road. */
  lemma RoadAccessMeans(g: Grid, x: int, y: int)
    requires IsGrid(g)
    ensures HasRoadAccess(g, x, y) <==>
              exists nx, ny :: InBounds(nx, ny) && Adjacent(x, y, nx, ny) && g[nx][ny].zone == ZoneType.Road
  {
    var cs := NeighborCoords(x, y);
    var ns := Neighbors(g, x, y);
    if HasRoadAccess(g, x, y) {
      var i :| 0 <= i < |ns| && ns[i].zone == ZoneType.Road;
      assert ns[i] == g[cs[i].0][cs[i].1];
    }
    if exists nx, ny :: InBounds(nx, ny) && Adjacent(x, y, nx, ny) && g[nx][ny].zone == ZoneType.Road {
      var nx, ny :| InBounds(nx, ny) && Adjacent(x, y, nx, ny) && g[nx][ny].zone == ZoneType.Road;
      NeighborCoordsExact(x, y, nx, ny);
      var i :| 0 <= i < |cs| && cs[i] == (nx, ny);
      assert ns[i].zone == ZoneType.Road;
    }
  }

  /** NearResidential holds exactly when some in-bounds orthogonal neighbour is a developed Residential tile. */
  lemma NearResidentialMeans(g: Grid, x: int, y: int)
    requires IsGrid(g)
    ensures NearResidential(g, x, y) <==>
              exists nx, ny :: InBounds(nx, ny) && Adjacent(x, y, nx, ny)
                               && g[nx][ny].zone == ZoneType.Residential && g[nx][ny].level > 0
  {
    var cs := NeighborCoords(x, y);
    var ns := Neighbors(g, x, y);
    if NearResidential(g, x, y) {
      var i :| 0 <= i < |ns| && ns[i].zone == ZoneType.Residential && ns[i].level > 0;
      assert ns[i] == g[cs[i].0][cs[i].1];
    }
    if exists nx, ny :: InBounds(nx, ny) && Adjacent(x, y, nx, ny)
                        && g[nx][ny].zone == ZoneType.Residential && g[nx][ny].level > 0 {
      var nx, ny :| InBounds(nx, ny) && Adjacent(x, y, nx, ny)
                    && g[nx][ny].zone == ZoneType.Residential && g[nx][ny].level > 0;
      NeighborCoordsExact(x, y, nx, ny);
      var i :| 0 <= i < |cs| && cs[i] == (nx, ny);
      assert ns[i] == g[nx][ny];
    }
  }

  // ---------------------------------------------------------------- one step, tile by tile

  /** The tile at (x, y) after a step is computed from the pre-step grid and its own draw. */
  lemma StepGridAt(g: Grid, random: nat -> Random, x: int, y: int)
    requires IsGrid(g) && InBounds(x, y)
    ensures StepGrid(g, random)[x][y] == NextTile(g, x, y, random(DrawIndex(g, x, y)))
  {
  }

  /**
   * The rules for one tile, whatever its draw: the zone type, coordinates and
   * timestamp never change; Road, Power and Empty tiles do not change at all;
   * the level moves by at most one and stays in range; a Residential tile
   * grows only with road access and decays only without it; a Commercial
   * tile grows only with road access and a developed Residential neighbour;
   * an Industrial tile grows only with road access; Commercial and
   * Industrial tiles never lose a level.
   */
  lemma NextTileRules(g: Grid, x: int, y: int, r: Random)
    requires IsGrid(g) && InBounds(x, y)
    ensures var t, t' := g[x][y], NextTile(g, x, y, r);
            && t'.zone == t.zone && t'.x == t.x && t'.y == t.y && t'.updatedAt == t.updatedAt
            && (!IsBuilding(t.zone) ==> t' == t)
            && -1 <= t'.level - t.level <= 1
            && (LevelInRange(t) ==> LevelInRange(t'))
            && (t'.level > t.level ==>
                  && (t.zone == ZoneType.Residential ==> HasRoadAccess(g, x, y))
                  && (t.zone == ZoneType.Commercial ==> HasRoadAccess(g, x, y) && NearResidential(g, x, y))
                  && (t.zone == ZoneType.Industrial ==> HasRoadAccess(g, x, y)))
            && (t'.level < t.level ==> t.zone == ZoneType.Residential && !HasRoadAccess(g, x, y))
  {
  }

  /**
   * Both directions of the level rules: a tile gains a level exactly when
   * it is below MAX_LEVEL, its growth condition holds and its draw exceeds
   * the zone's threshold; it loses one exactly when it is a Residential tile
   * without road access above MIN_LEVEL whose draw exceeds 0.8.
   */
  lemma NextTileLevelChange(g: Grid, x: int, y: int, r: Random)
    requires IsGrid(g) && InBounds(x, y)
    ensures var t, t' := g[x][y], NextTile(g, x, y, r);
            && (t'.level > t.level <==>
                  t.level < MAX_LEVEL
                  && ((t.zone == ZoneType.Residential && HasRoadAccess(g, x, y) && r > RESIDENTIAL_GROWTH)
                      || (t.zone == ZoneType.Commercial && HasRoadAccess(g, x, y) && NearResidential(g, x, y)
                          && r > COMMERCIAL_GROWTH)
                      || (t.zone == ZoneType.Industrial && HasRoadAccess(g, x, y) && r > INDUSTRIAL_GROWTH)))
            && (t'.level < t.level <==>
                  t.zone == ZoneType.Residential && !HasRoadAccess(g, x, y) && r > RESIDENTIAL_DECAY
                  && t.level > MIN_LEVEL)
  {
  }

  /** A step changes no tile's zone type, coordinates or timestamp, nor the grid's shape. */
  lemma StepKeepsIdentity(g: Grid, random: nat -> Random)
    requires IsGrid(g)
    ensures IsGrid(StepGrid(g, random))
    ensures forall x, y :: InBounds(x, y) ==>
              var t, t' := g[x][y], StepGrid(g, random)[x][y];
              t'.zone == t.zone && t'.x == t.x && t'.y == t.y && t'.updatedAt == t.updatedAt
  {
    forall x, y | InBounds(x, y)
      ensures var t, t' := g[x][y], StepGrid(g, random)[x][y];
              t'.zone == t.zone && t'.x == t.x && t'.y == t.y && t'.updatedAt == t.updatedAt
    {
      StepGridAt(g, random, x, y);
      NextTileRules(g, x, y, random(DrawIndex(g, x, y)));
    }
  }

  /** Road, Power and Empty tiles come out of a step unchanged. */
  lemma StepKeepsNonBuildings(g: Grid, random: nat -> Random)
    requires IsGrid(g)
    ensures forall x, y :: InBounds(x, y) && !IsBuilding(g[x][y].zone) ==> StepGrid(g, random)[x][y] == g[x][y]
  {
    forall x, y | InBounds(x, y) && !IsBuilding(g[x][y].zone)
      ensures StepGrid(g, random)[x][y] == g[x][y]
    {
      StepGridAt(g, random, x, y);
      NextTileRules(g, x, y, random(DrawIndex(g, x, y)));
    }
  }

  /** A step moves every level by at most one, and keeps levels in range. */
  lemma StepLevelBounds(g: Grid, random: nat -> Random)
    requires IsGrid(g)
    ensures forall x, y :: InBounds(x, y) ==>
              -1 <= StepGrid(g, random)[x][y].level - g[x][y].level <= 1
    ensures LevelsInRange(g) ==> LevelsInRange(StepGrid(g, random))
  {
    forall x, y | InBounds(x, y)
      ensures -1 <= StepGrid(g, random)[x][y].level - g[x][y].level <= 1
      ensures LevelInRange(g[x][y]) ==> LevelInRange(StepGrid(g, random)[x][y])
    {
      StepGridAt(g, random, x, y);
      NextTileRules(g, x, y, random(DrawIndex(g, x, y)));
    }
  }

  /** The direction rules of NextTileRules, for every tile of a step. */
  lemma StepGrowthRules(g: Grid, random: nat -> Random, x: int, y: int)
    requires IsGrid(g) && InBounds(x, y)
    ensures var t, t' := g[x][y], StepGrid(g, random)[x][y];
            && (t'.level > t.level ==>
                  && (t.zone == ZoneType.Residential ==> HasRoadAccess(g, x, y))
                  && (t.zone == ZoneType.Commercial ==> HasRoadAccess(g, x, y) && NearResidential(g, x, y))
                  && (t.zone == ZoneType.Industrial ==> HasRoadAccess(g, x, y)))
            && (t'.level < t.level ==> t.zone == ZoneType.Residential && !HasRoadAccess(g, x, y))
  {
    StepGridAt(g, random, x, y);
    NextTileRules(g, x, y, random(DrawIndex(g, x, y)));
  }

  /**
   * Each tile's outcome depends only on its own pre-step tile, its pre-step
   * neighbours and its draw: no tile reads another tile's new level, so the
   * order of the scan matters only through which draw each tile gets.
   */
  lemma NextTileIsLocal(g1: Grid, g2: Grid, x: int, y: int, r: Random)
    requires IsGrid(g1) && IsGrid(g2) && InBounds(x, y)
    requires g1[x][y] == g2[x][y]
    requires forall i :: 0 <= i < |NeighborCoords(x, y)| ==>
               g1[NeighborCoords(x, y)[i].0][NeighborCoords(x, y)[i].1]
               == g2[NeighborCoords(x, y)[i].0][NeighborCoords(x, y)[i].1]
    ensures DrawsRandom(g1, x, y) == DrawsRandom(g2, x, y)
    ensures NextTile(g1, x, y, r) == NextTile(g2, x, y, r)
  {
    assert Neighbors(g1, x, y) == Neighbors(g2, x, y);
  }

  /** A well-formed grid stays well-formed through a step. */
  lemma StepPreservesWellFormed(g: Grid, random: nat -> Random)
    requires WellFormedGrid(g)
    ensures WellFormedGrid(StepGrid(g, random))
  {
    forall x, y | InBounds(x, y)
      ensures WellFormedTile(StepGrid(g, random)[x][y], x, y)
    {
      assert WellFormedTile(g[x][y], x, y);
      StepGridAt(g, random, x, y);
      NextTileRules(g, x, y, random(DrawIndex(g, x, y)));
    }
  }

  // ---------------------------------------------------------------- the random stream

  lemma {:induction false} RowDrawsMonotone(g: Grid, x: int, y1: int, y2: int)
    requires IsGrid(g) && 0 <= x < GRID_SIZE && 0 <= y1 <= y2 <= GRID_SIZE
    ensures RowDraws(g, x, y1) + (if y1 < y2 && DrawsRandom(g, x, y1) then 1 else 0) <= RowDraws(g, x, y2)
    decreases y2
  {
    if y1 < y2 {
      RowDrawsMonotone(g, x, y1, y2 - 1);
    }
  }

  lemma {:induction false} RowsDrawsMonotone(g: Grid, x1: int, x2: int)
    requires IsGrid(g) && 0 <= x1 <= x2 <= GRID_SIZE
    ensures RowsDraws(g, x1) <= RowsDraws(g, x2)
    decreases x2
  {
    if x1 < x2 {
      RowsDrawsMonotone(g, x1, x2 - 1);
    }
  }

  /**
   * Every tile that draws gets a value of its own: a drawing tile's position
   * in the random stream lies strictly before that of every tile scanned
   * after it (x outer, y inner).
   */
  lemma DrawIndexIncreasing(g: Grid, x1: int, y1: int, x2: int, y2: int)
    requires IsGrid(g) && InBounds(x1, y1) && InBounds(x2, y2)
    requires x1 < x2 || (x1 == x2 && y1 < y2)
    requires DrawsRandom(g, x1, y1)
    ensures DrawIndex(g, x1, y1) < DrawIndex(g, x2, y2)
  {
    if x1 == x2 {
      RowDrawsMonotone(g, x1, y1, y2);
    } else {
      RowDrawsMonotone(g, x1, y1, GRID_SIZE);
      RowsDrawsMonotone(g, x1 + 1, x2);
    }
  }

  // ---------------------------------------------------------------- statistics

  /** Every level of the rows is non-negative. */
  ghost predicate LevelsNonNegative(g: Grid) {
    forall i, j :: 0 <= i < |g| && 0 <= j < |g[i]| ==> g[i][j].level >= 0
  }

  lemma {:induction false} RowLevelsNonNegative(row: seq<Tile>, z: ZoneType)
    requires forall j :: 0 <= j < |row| ==> row[j].level >= 0
    ensures RowLevels(row, z) >= 0
  {
    if row != [] {
      RowLevelsNonNegative(row[..|row| - 1], z);
    }
  }

  lemma {:induction false} GridLevelsNonNegative(g: Grid, z: ZoneType)
    requires LevelsNonNegative(g)
    ensures GridLevels(g, z) >= 0
  {
    if g != [] {
      assert LevelsNonNegative(g[..|g| - 1]);
      assert g[|g| - 1] == g[|g| - 1];
      RowLevelsNonNegative(g[|g| - 1], z);
      GridLevelsNonNegative(g[..|g| - 1], z);
    }
  }

  /** Population and income are non-negative when every level is. */
  lemma AggregatesNonNegative(g: Grid)
    requires LevelsNonNegative(g)
    ensures Population(g) >= 0 && Income(g) >= 0
  {
    GridLevelsNonNegative(g, ZoneType.Residential);
    GridLevelsNonNegative(g, ZoneType.Commercial);
    GridLevelsNonNegative(g, ZoneType.Industrial);
  }

  /**
   * After a step from a grid whose levels are in range: population and income
   * are non-negative, population is twice the Residential levels of the new
   * grid, the day advances by one and funds grow by exactly this step's income.
   */
  lemma StepStatsFacts(g: Grid, random: nat -> Random, s: CityStats)
    requires LevelsInRange(g)
    ensures var h := StepGrid(g, random); var s' := StepStats(s, h);
            && s'.population == 2 * GridLevels(h, ZoneType.Residential) >= 0
            && s'.income == Income(h) >= 0
            && s'.day == s.day + 1
            && s'.funds == s.funds + s'.income >= s.funds
  {
    var h := StepGrid(g, random);
    StepLevelBounds(g, random);
    assert LevelsNonNegative(h);
    AggregatesNonNegative(h);
  }

  lemma {:induction false} RowLevelsWithout(row: seq<Tile>, z: ZoneType)
    requires forall j :: 0 <= j < |row| ==> row[j].zone != z
    ensures RowLevels(row, z) == 0
  {
    if row != [] {
      RowLevelsWithout(row[..|row| - 1], z);
    }
  }

  lemma {:induction false} RowLevelsSingle(row: seq<Tile>, k: int, z: ZoneType)
    requires 0 <= k < |row|
    requires forall j :: 0 <= j < |row| && j != k ==> row[j].zone != z
    ensures RowLevels(row, z) == if row[k].zone == z then row[k].level else 0
  {
    if k == |row| - 1 {
      RowLevelsWithout(row[..|row| - 1], z);
    } else {
      RowLevelsSingle(row[..|row| - 1], k, z);
    }
  }

  lemma {:induction false} GridLevelsWithout(g: Grid, z: ZoneType)
    requires forall i, j :: 0 <= i < |g| && 0 <= j < |g[i]| ==> g[i][j].zone != z
    ensures GridLevels(g, z) == 0
  {
    if g != [] {
      RowLevelsWithout(g[|g| - 1], z);
      GridLevelsWithout(g[..|g| - 1], z);
    }
  }

  /** When at most the tile (x, y) has zone type z, the grid's z-levels are that tile's level. */
  lemma {:induction false} GridLevelsSingle(g: Grid, x: int, y: int, z: ZoneType)
    requires 0 <= x < |g| && 0 <= y < |g[x]|
    requires forall i, j :: 0 <= i < |g| && 0 <= j < |g[i]| && (i != x || j != y) ==> g[i][j].zone != z
    ensures GridLevels(g, z) == if g[x][y].zone == z then g[x][y].level else 0
  {
    if x == |g| - 1 {
      RowLevelsSingle(g[x], y, z);
      GridLevelsWithout(g[..|g| - 1], z);
    } else {
      RowLevelsWithout(g[|g| - 1], z);
      GridLevelsSingle(g[..|g| - 1], x, y, z);
    }
  }
}
