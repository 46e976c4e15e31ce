# City growth, tile placement and gesture debouncing in Dafny

This project models the discrete core of a small collection of browser toys.

- **The city-builder toy (sim3).**
  - A 20×20 grid of tiles, each with a zone type (Empty, Residential, Commercial, Industrial, Road, Power) and a level from 0 to 4.
  - A simulation tick grows or decays buildings according to their neighbours and a random draw, then recomputes population, income, funds and the day.
  - A tile click applies the selected tool (Bulldoze or a zone), and a pause flag gates the tick.
- **The hand-gesture zoom controller (sim1).**
  - Each camera frame's extended-finger count is classified as an open palm, a fist or neither.
  - A zoom gesture is emitted once the same classification has lasted four consecutive frames.

Layout, following the source's structure:

| file | module | models |
|---|---|---|
| `options.dfy` | `Options` | an `Option` datatype |
| `types.dfy` | `CityTypes` | `sim3/types.ts`: ZoneType, Tile, CityStats, Grid, Tool |
| `constants.dfy` | `CityConstants` | `sim3/constants.ts`: grid size, tick rate, initial funds, zone colours, the tool catalog |
| `simulation.dfy` | `Simulation` | `sim3/services/simulation.ts`: the grid as `array2<Tile>`, the methods `CreateInitialGrid`, `GetNeighbors`, `RunSimulationStep` (split per tile and per row), and the pure specification `StepGrid` / `StepStats` they are proved against |
| `simulation_lemmas.dfy` | `SimulationLemmas` | properties of the specification: neighbourhoods, the growth rules, bounds, aggregates |
| `app.dfy` | `CityApp` | `sim3/App.tsx`: the pure placement `ApplyTool`, its properties, and the class `App` holding grid, stats, selected tool and pause flag |
| `gesture.dfy` | `GestureControl` | `sim1/components/GestureController.tsx`: the class `GestureController` with the two fields the source mutates, and a pure reference `Next` with the debounce theorem |

Modelling choices:

- **Random draws.** `Math.random()` is an injected stream `random: nat -> Random`, with `Random` the reals in [0, 1).
  - The k-th draw a tick takes is `random(k)`.
  - `DrawIndex(g, x, y)` counts the tiles before (x, y) in the scan order (x outer, y inner) that take a draw.
  - A Residential tile always draws. A Commercial tile draws only with road access and a developed Residential neighbour, and an Industrial tile only with road access. The draw is taken before the level bound is checked, as in the source.
- **Grids.** The methods hold grids as `array2<Tile>`. `Cells(a)` is their value view, `seq<seq<Tile>>`, and every specification function and lemma works on values.
  - `RunSimulationStep` reads its input array and returns a fresh one, so the input is never changed.
- **Names.** The Tile field `type` is called `zone`. `ZoneType` and `Tool` share constructor names, so each use is qualified (`ZoneType.Road`, `Tool.Road`).
- **Time.** `Date.now()` is the `now` parameter of a click.
- **Fingers.** The landmark comparison of each finger is an input boolean.

## Model

| member | source | states |
|---|---|---|
| CityTypes.ToolZone | sim3/types.ts:27-32 | a non-Bulldoze tool's id is a zone type other than Empty |
| CityTypes.ToolZoneInjective | sim3/types.ts:27-32 | distinct zone tools have distinct zone ids |
| CityTypes.EveryZonePlaceable | sim3/types.ts:1-8 | every zone type other than Empty is the id of some tool |
| CityConstants.ZoneColor | sim3/constants.ts:7-14 | every zone type has a colour, and it is a hex colour string |
| CityConstants.ToolColor | sim3/constants.ts:16-23 | every tool's colour is a hex colour string |
| CityConstants.CatalogIsComplete | sim3/constants.ts:16-23 | the catalog has exactly six entries; every tool is in it once; costs strictly increase in catalog order |
| CityConstants.ToolColorIsZoneColor | sim3/constants.ts:7-23 | a zone tool is drawn in the colour of the zone it places |
| Simulation.CreateInitialGrid | sim3/services/simulation.ts:4-20 | a fresh GRID_SIZE×GRID_SIZE array whose tile at (x, y) is (x, y, Empty, level 0, updatedAt 0); the grid is well-formed |
| Simulation.NeighborCoordsUpTo | sim3/services/simulation.ts:24-31 | the candidate list after k directions has at most k cells, all in bounds and orthogonally adjacent |
| Simulation.GetNeighbors | sim3/services/simulation.ts:22-33 | the loop over the four directions returns exactly the tiles of the in-bounds neighbours `Neighbors(Cells(grid), x, y)`, in direction order |
| Simulation.StepGrid | sim3/services/simulation.ts:35-84 | the stepped grid has the same GRID_SIZE×GRID_SIZE shape |
| Simulation.AdvanceTile | sim3/services/simulation.ts:44-82 | the new tile for (x, y) is `NextTile` of the pre-step grid with the next draw; it consumes exactly one draw when `DrawsRandom` holds and none otherwise |
| Simulation.AdvanceRow | sim3/services/simulation.ts:43-83 | row x of the new grid becomes row x of `StepGrid`, other rows are untouched; the draw counter reaches `RowsDraws(g, x + 1)`; the population and income accumulators grow by this row's contribution |
| Simulation.RunSimulationStep | sim3/services/simulation.ts:35-95 | the result is a fresh array equal to `StepGrid` of the input, and the stats are `StepStats` of it: population and income recomputed from the new grid, day + 1, funds + income |
| SimulationLemmas.NeighborCoordsUnfold | sim3/services/simulation.ts:24-31 | the neighbour list is the in-bounds cells among (x, y+1), (x, y-1), (x+1, y), (x-1, y), in that order |
| SimulationLemmas.NeighborCoordsExact | sim3/services/simulation.ts:22-33 | a cell is listed exactly when it is in bounds and orthogonally adjacent: no diagonals, no wrap-around |
| SimulationLemmas.NeighborCount | sim3/services/simulation.ts:22-33 | the number of neighbours is one per in-bounds direction, and no cell is listed twice |
| SimulationLemmas.NeighborCountCases | sim3/services/simulation.ts:22-33 | a corner has 2 neighbours, a non-corner edge cell 3, an interior cell 4 |
| SimulationLemmas.NeighborTiles | sim3/services/simulation.ts:22-33 | on a well-formed grid at most 4 tiles are returned, each carrying in-bounds coordinates orthogonally adjacent to (x, y) |
| SimulationLemmas.RoadAccessMeans | sim3/services/simulation.ts:46 | road access holds exactly when some in-bounds orthogonal neighbour of the pre-step grid is a Road |
| SimulationLemmas.NearResidentialMeans | sim3/services/simulation.ts:65 | the Commercial condition holds exactly when some in-bounds orthogonal neighbour is Residential with level above 0 |
| SimulationLemmas.NextTileRules | sim3/services/simulation.ts:46-82 | zone, coordinates and timestamp are kept; non-buildings are unchanged; a level moves by at most one and stays in [0, 4]; each kind of growth needs its condition, and only a Residential tile without road access decays |
| SimulationLemmas.NextTileLevelChange | sim3/services/simulation.ts:49-82 | both directions: a tile gains a level exactly when it is below 4, its condition holds and its draw exceeds 0.7, 0.6 or 0.6; it loses one exactly when it is Residential without road access above level 0 and its draw exceeds 0.8 |
| SimulationLemmas.StepKeepsIdentity | sim3/services/simulation.ts:37-82 | a step changes no tile's zone type, coordinates or timestamp, nor the grid's shape |
| SimulationLemmas.StepKeepsNonBuildings | sim3/services/simulation.ts:49-82 | Empty, Road and Power tiles come out of a step unchanged |
| SimulationLemmas.StepLevelBounds | sim3/services/simulation.ts:52-77 | each level changes by at most one, and levels all in [0, 4] before a step are all in [0, 4] after it |
| SimulationLemmas.StepGrowthRules | sim3/services/simulation.ts:46-82 | Residential grows only with road access and decays only without it; Commercial grows only with road access and a developed Residential neighbour; Industrial grows only with road access; Commercial and Industrial never drop |
| SimulationLemmas.NextTileIsLocal | sim3/services/simulation.ts:44-45 | the outcome of a tile depends only on the tile and its neighbours in the pre-step grid, so the scan order cannot influence it except through the draw it receives |
| SimulationLemmas.StepPreservesWellFormed | sim3/services/simulation.ts:35-84 | a step keeps the grid well-formed: coordinates match positions, levels in [0, 4], non-buildings at level 0 |
| SimulationLemmas.RowDrawsMonotone | sim3/services/simulation.ts:42-84 | within a row the draw counter never decreases, and it increases past a tile that draws |
| SimulationLemmas.RowsDrawsMonotone | sim3/services/simulation.ts:42-84 | across rows the draw counter never decreases |
| SimulationLemmas.DrawIndexIncreasing | sim3/services/simulation.ts:42-84 | a drawing tile's draw comes strictly before the draw of any tile after it in scan order, so no two tiles share a draw |
| SimulationLemmas.RowLevelsNonNegative | sim3/services/simulation.ts:59-81 | a row's level sum is non-negative when its levels are |
| SimulationLemmas.GridLevelsNonNegative | sim3/services/simulation.ts:59-81 | a grid's level sum for a zone is non-negative when its levels are |
| SimulationLemmas.AggregatesNonNegative | sim3/services/simulation.ts:59-81 | population and income are non-negative when all levels are |
| SimulationLemmas.StepStatsFacts | sim3/services/simulation.ts:59-92 | after a step population is 2 × the Residential level sum, income is non-negative, day advances by one and funds grow by exactly this step's income |
| SimulationLemmas.RowLevelsWithout | sim3/services/simulation.ts:59-61 | a row without tiles of a zone contributes 0 for that zone |
| SimulationLemmas.RowLevelsSingle | sim3/services/simulation.ts:59-61 | a row with one tile of a zone contributes that tile's level |
| SimulationLemmas.GridLevelsWithout | sim3/services/simulation.ts:59-81 | a grid without tiles of a zone has level sum 0 for it |
| SimulationLemmas.GridLevelsSingle | sim3/services/simulation.ts:59-81 | a grid with one tile of a zone has that tile's level as its sum |
| CityApp.ApplyToolSucceedsIff | sim3/App.tsx:38-61 | a click succeeds exactly when funds cover the cost and the tool is Bulldoze or the tile is Empty |
| CityApp.ApplyToolRefusalChangesNothing | sim3/App.tsx:38-57 | insufficient funds, or a zone tool on a non-Empty tile of the same or another type, leaves grid and funds unchanged |
| CityApp.ApplyToolTouchesOnlyTarget | sim3/App.tsx:65-75 | a successful click changes only cell (x, y), keeps its coordinates, stamps it with `now` and deducts exactly the cost, leaving funds ≥ 0 |
| CityApp.BulldozeClears | sim3/App.tsx:46-75 | affordable Bulldoze leaves an Empty level-0 tile whatever was there, and charges 5 even on an Empty tile |
| CityApp.PlaceOnEmpty | sim3/App.tsx:58-61 | a zone tool on an affordable Empty tile places its zone, at level 0 for Road and Power and level 1 for buildings |
| CityApp.PlaceTwice | sim3/App.tsx:50-61 | the same zone tool on an Empty tile succeeds the first time and is refused at no cost the second |
| CityApp.ApplyToolPreservesWellFormed | sim3/App.tsx:43-72 | a click keeps the grid well-formed |
| CityApp.FirstDayScenario | sim3/App.tsx:33-77 | on the initial grid with 5000 funds, Road at (5, 5) then Residential at (5, 6) leave 4940; a step whose draws all exceed every threshold raises the Residential tile to level 2, giving population 4, income 2, funds 4942, day 2 |
| CityApp.DecayScenario | sim3/services/simulation.ts:55-58 | a level-3 Residential tile with no Road neighbour decays to level 2 when its draw exceeds 0.8 |
| CityApp.InsufficientFundsScenario | sim3/App.tsx:38-41 | Commercial (cost 100) with 50 in funds is refused and changes nothing |
| CityApp.PlaceTile | sim3/App.tsx:64-72 | the new grid is a fresh copy of the old one with only cell (x, y) replaced |
| CityApp.App.constructor | sim3/App.tsx:10-18 | the initial session: an all-Empty level-0 grid, population 0, funds 5000, day 1, income 0, Road selected, not paused |
| CityApp.App.SelectTool | sim3/App.tsx:86 | the chosen tool becomes the selected tool |
| CityApp.App.TogglePause | sim3/App.tsx:89 | the pause flag flips |
| CityApp.App.Tick | sim3/App.tsx:21-31 | paused: grid and stats unchanged; running: the grid becomes `StepGrid` of the old one and the stats `StepStats`; the session invariant is kept |
| CityApp.App.HandleTileClick | sim3/App.tsx:33-77 | the grid and funds become those of `ApplyTool` for the selected tool; a fresh grid is installed only on success; the other statistics and the session invariant are kept |
| GestureControl.CountTrue | sim1/components/GestureController.tsx:46-53 | the count is at most the number of tests; it is 0 exactly when no test passed and maximal exactly when all passed |
| GestureControl.Classify | sim1/components/GestureController.tsx:56-61 | open exactly when the count is ≥ 3, closed exactly when ≤ 1, none exactly when 2 |
| GestureControl.CountExtended | sim1/components/GestureController.tsx:46-53 | the counting loop returns the number of extended fingers |
| GestureControl.GestureController.constructor | sim1/components/GestureController.tsx:10-13 | the controller starts at ('none', 0), which satisfies the invariant |
| GestureControl.GestureController.AnalyzeGestures | sim1/components/GestureController.tsx:35-81 | the new fields and the gesture returned are those of the reference `Analyze`; the invariant is kept |
| GestureControl.GestureController.OnResults | sim1/components/GestureController.tsx:23-33 | a frame with a hand is analysed, a frame without one resets to ('none', 0) and emits nothing; the result equals the reference `Next` |
| GestureControl.ExtendedCountBounds | sim1/components/GestureController.tsx:39-53 | the extended-finger count lies in [0, 4] and is the number of extended fingers |
| GestureControl.InitialConsistent | sim1/components/GestureController.tsx:10-13 | the initial state satisfies `zoomFrames = 0` exactly when the last gesture is 'none' |
| GestureControl.NextPreservesConsistent | sim1/components/GestureController.tsx:29-79 | every branch keeps that invariant |
| GestureControl.NextRules | sim1/components/GestureController.tsx:29-79 | the same classification again adds one; a different one restarts at 1; none, or no hand, resets to ('none', 0) |
| GestureControl.EmitRules | sim1/components/GestureController.tsx:71-75 | a gesture is emitted exactly when the updated count is at least 4, so on the 4th and every later frame of a run; open gives zoom-in, closed zoom-out, and 'none' is never emitted |
| GestureControl.StateAfterIsStreak | sim1/components/GestureController.tsx:63-79 | after any frame sequence the counter is the length of the final run of equally classified frames, and the last gesture is that run's classification |
| GestureControl.StreakIsPoseRun | sim1/components/GestureController.tsx:63-79 | the final run is empty exactly when the last frame classifies as none |
| GestureControl.StreakAtLeast | sim1/components/GestureController.tsx:63-79 | the run is at least k long exactly when the last k frames share one classification other than none |
| GestureControl.EmissionIffStable | sim1/components/GestureController.tsx:16-75 | from a fresh controller, a frame emits exactly when it and the three before it share a classification other than none; open gives zoom-in, closed zoom-out |
| GestureControl.FourOpenPalmsZoomIn | sim1/components/GestureController.tsx:16-75 | three open palms emit nothing; the fourth emits zoom-in |
| GestureControl.LostHandRestartsRun | sim1/components/GestureController.tsx:29-31 | three fists, a frame without a hand, then a fist: nothing is emitted and the count is back at 1 |

## Left out

- Rendering is not modelled. This covers the three.js scenes, the React markup, the UI overlay, and the display strings `status` and `currentGesture`. None of it affects the state.
- `alert("Insufficient funds!")` is not modelled. It only notifies the user, and the refusal itself is modelled.
- The `setTimeout` scheduling with `TICK_RATE_MS` is a timer. `App.Tick` is the body it runs when it fires. `TICK_RATE_MS` is kept as a constant.
- Probabilities of `Math.random()` are not modelled. It is an injected stream and the thresholds 0.7, 0.8 and 0.6 are exact reals, so double-precision rounding of the draws is outside the model.
- Simulation.RunSimulationStep copies the whole grid into a fresh array. The source makes a shallow per-tile copy. Since no tile object is shared, this changes nothing observable.
- CityApp.PlaceTile copies the whole grid into a fresh array. The source copies only the outer array and row x, so it shares the other rows with the old grid. Tiles are values here, so the sharing is not observable.
- The MediaPipe hand tracker, the camera, and the dispatch of the `CustomEvent` are not modelled. The dispatch is the gesture returned by `AnalyzeGestures` and `OnResults`. The optional `strength` of the event is fixed at 1 and not modelled.
- The float landmark test `tip.y < pip.y - 0.02` is not modelled. Each finger's outcome is an input boolean.
- GestureControl.GestureController.AnalyzeGestures: `zoomFrames` is an unbounded integer. The source uses a JavaScript number, which behaves the same for any realistic number of frames.
- `LEVEL_HEIGHT_MULTIPLIER` in `sim3/constants.ts` is a rendering scale and is not modelled.
- The text-generation service of sim3 is a network call and is not part of this model.
- The other toys and the launcher are not part of this model. This covers the audio engine and its panels, the solar-system scene and its planet data.
- Simulation.StepGrid: its own contract only states the grid shape. Its meaning is stated by the lemmas of `SimulationLemmas` and by `RunSimulationStep`.
