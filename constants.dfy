/** Configuration constants of the city toy: sizes, budget, colours and the tool catalog. */
module CityConstants {
  import opened CityTypes

  /** The grid is GRID_SIZE by GRID_SIZE tiles. */
  const GRID_SIZE: nat := 20

  /** Milliseconds between two simulation ticks. */
  const TICK_RATE_MS: nat := 1000

  /** Funds at the start of a session. */
  const INITIAL_FUNDS: int := 5000

  /** A colour written as `#` followed by six lower-case hex digits. */
  predicate IsHexColor(s: string) {
    |s| == 7 && s[0] == '#' && forall i :: 1 <= i < 7 ==> s[i] in "0123456789abcdef"
  }

  /** The display colour of each zone type; every zone type has one. */
  function ZoneColor(z: ZoneType): (c: string)
    ensures IsHexColor(c)
  {
    match z
    case Empty => "#4ade80"
    case Residential => "#22c55e"
    case Commercial => "#3b82f6"
    case Industrial => "#eab308"
    case Road => "#374151"
    case Power => "#a855f7"
  }

  /** The price of applying a tool once. */
  function ToolCost(t: Tool): nat {
    match t
    case Bulldoze => 5
    case Road => 10
    case Residential => 50
    case Commercial => 100
    case Industrial => 150
    case Power => 500
  }

  /** The palette label of a tool. */
  function ToolLabel(t: Tool): string {
    match t
    case Bulldoze => "Bulldoze"
    case Road => "Road"
    case Residential => "Residential"
    case Commercial => "Commercial"
    case Industrial => "Industrial"
    case Power => "Power"
  }

  /** The palette colour of a tool. */
  function ToolColor(t: Tool): (c: string)
    ensures IsHexColor(c)
  {
    match t
    case Bulldoze => "#ef4444"
    case Road => "#374151"
    case Residential => "#22c55e"
    case Commercial => "#3b82f6"
    case Industrial => "#eab308"
    case Power => "#a855f7"
  }

  /** The tool catalog, in palette order. */
  const TOOLS: seq<Tool> :=
    [Tool.Bulldoze, Tool.Road, Tool.Residential, Tool.Commercial, Tool.Industrial, Tool.Power]

  /** The catalog lists every tool exactly once, with strictly increasing costs. */
  lemma CatalogIsComplete()
    ensures |TOOLS| == 6
    ensures forall t: Tool :: t in TOOLS
    ensures forall i, j :: 0 <= i < j < |TOOLS| ==> TOOLS[i] != TOOLS[j]
    ensures forall i, j :: 0 <= i < j < |TOOLS| ==> ToolCost(TOOLS[i]) < ToolCost(TOOLS[j])
  {
    forall t: Tool ensures t in TOOLS {
      match t
      case Bulldoze => assert TOOLS[0] == t;
      case Road => assert TOOLS[1] == t;
      case Residential => assert TOOLS[2] == t;
      case Commercial => assert TOOLS[3] == t;
      case Industrial => assert TOOLS[4] == t;
      case Power => assert TOOLS[5] == t;
    }
  }

  /** A zone tool is drawn in the colour of the zone it places. */
  lemma ToolColorIsZoneColor(t: Tool)
    requires t != Tool.Bulldoze
    ensures ToolColor(t) == ZoneColor(ToolZone(t))
  {
  }
}
