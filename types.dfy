/**
 * The value types of the city toy: zone types, tiles, the city-wide
 * statistics, the grid and the placement tools.
 */
module CityTypes {

  /** The category of a tile; a closed set of six values. */
  datatype ZoneType = Empty | Residential | Commercial | Industrial | Road | Power

  /** Residential, Commercial and Industrial tiles carry a development level. */
  predicate IsBuilding(z: ZoneType) {
    z == ZoneType.Residential || z == ZoneType.Commercial || z == ZoneType.Industrial
  }

  /** Lowest and highest development level of a tile. */
  const MIN_LEVEL: int := 0
  const MAX_LEVEL: int := 4

  /**
   * One grid cell. The source calls the zone field `type`, a keyword here.
   * `updatedAt` is a timestamp that no rule reads.
   */
  datatype Tile = Tile(x: int, y: int, zone: ZoneType, level: int, updatedAt: int)

  /** A tile's level lies in the documented range. */
  predicate LevelInRange(t: Tile) {
    MIN_LEVEL <= t.level <= MAX_LEVEL
  }

  /** The city-wide aggregate: exactly these four numbers. */
  datatype CityStats = CityStats(population: int, funds: int, day: int, income: int)

  /** A grid is a sequence of rows (indexed by x) of tiles (indexed by y). */
  type Grid = seq<seq<Tile>>

  /**
   * The placement tools. A tool's id is either the literal Bulldoze or a
   * zone type; the closed datatype keeps exactly the six ids of the catalog.
   * Its constructors share names with ZoneType, so both are always written
   * qualified (`Tool.Road`, `ZoneType.Road`).
   */
  datatype Tool = Bulldoze | Road | Residential | Commercial | Industrial | Power

  /** The zone type a non-Bulldoze tool places (the source's `id as ZoneType`). */
  function ToolZone(t: Tool): (z: ZoneType)
    requires t != Tool.Bulldoze
    ensures z != ZoneType.Empty
  {
    match t
    case Road => ZoneType.Road
    case Residential => ZoneType.Residential
    case Commercial => ZoneType.Commercial
    case Industrial => ZoneType.Industrial
    case Power => ZoneType.Power
  }

  /** Distinct tools place distinct zone types, so a tool id names one tool. */
  lemma ToolZoneInjective(t1: Tool, t2: Tool)
    requires t1 != Tool.Bulldoze && t2 != Tool.Bulldoze
    ensures ToolZone(t1) == ToolZone(t2) ==> t1 == t2
  {
  }

  /** Every non-Empty zone type is placed by some tool (unique by ToolZoneInjective). */
  lemma EveryZonePlaceable(z: ZoneType)
    requires z != ZoneType.Empty
    ensures exists t :: t != Tool.Bulldoze && ToolZone(t) == z
  {
    var t := match z
      case Residential => Tool.Residential
      case Commercial => Tool.Commercial
      case Industrial => Tool.Industrial
      case Road => Tool.Road
      case Power => Tool.Power;
    assert ToolZone(t) == z;
  }
}
