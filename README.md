# playground terrain, drainage and demo-page logic in Dafny

This project models the computational core of the `playground` repository, a collection of
WebGL demo pages written in TypeScript. Rendering, shader and panel wiring are not modelled.

The core covers these parts:

- **River builder** of the mapgen demo. It:
  - turns a Delaunay triangulation into triangle records;
  - derives triangle adjacency from the half-edge array;
  - points every triangle at its strictly lowest neighbour;
  - computes flow by a memoised depth-first walk;
  - traces rivers above a flow threshold.
- **Terrain fields and classifiers**:
  - the decaying-amplitude `fbm` octave loop and the band colouring of the mapgen demo;
  - the six-frequency weighted noise average and the elevation × moisture biome table of the noise map;
  - the `<=` band chain, elevation remap and row-major render of the terrain map generator;
  - the logged noise remap, band colouring and lightness, surface grid and block layout of the block terrain.
- **GPU picking**:
  - the id ↔ colour codec;
  - the `lastId` / highlight state machine;
  - the scene rebuilds and the colour-buffer fill loops.
- **Image filter**: the in-place texture-coordinate crop and the aspect-fit mesh scale.
- **Building explode demo**:
  - the floor stack and the column grid;
  - the explode targets;
  - the selection, view-mode and reset rules;
  - the floor options of its panel.
- **Page index**: the featured/AI page filter and the card strings.

Each source file is one Dafny module. `Common` holds what they share: an `Option` type, natural
powers and row-major grids.

Code that changes state step by step is imperative Dafny. It uses classes with `modifies` clauses,
arrays updated in place and loops with invariants. Each method is proved against a specification
function, and the properties of those functions are proved as lemmas. Pure decision code
(classifiers, scale choices, filters) is written as functions, with lemmas about them.

Values are modelled as follows:

- Numbers are `real`, with these exceptions:
  - octave counts, `redistribution`, `elevationPow` and the cube `count` are `nat`, because they
    are counts or `Math.pow` exponents;
  - the river threshold `minFlow` is an `int`, because flows are whole numbers.
- Byte-level colour arithmetic is `nat` or `bv32`.
- Simplex noise, `Math.random` and the `FBM` class of the noise library are function parameters.
  Noise is assumed to range over [-1, 1] where a lemma needs it.

Some behaviour of the code is easy to misread, and the model keeps it as written:

- `fbm` (`pages/14-mapgen-webgl-demo/utils.ts:108-109`) raises the raw octave sum to
  `redistribution` before dividing by `max`, so the result is normalised only for
  redistribution 1.
- The flow of `assignFlow` (`pages/mapgen-webgl-demo/river.ts:85-92`) is `1 + flow(downslope)`.
  That is the length of the triangle's own downslope chain, not the number of triangles draining
  into it. A local minimum therefore always has flow 1.
- River tracing has no revisit check. It stops because flow falls by exactly one along each
  downslope link (`RiverFromShape`).
- The band comparisons differ by file:
  - `getElevationColor` of the mapgen demo uses strict `<` tests;
  - the terrain map generator and the block terrain use `<=` tests keyed on `water.value`.
  - In the terrain map generator, `params.seaLevel` is not what `assignColor` reads: the slider
    writes `0.6 * value` into `water.value`.

## Model

| member | source | states |
|---|---|---|
| River.BuildTriangles | pages/mapgen-webgl-demo/river.ts:11-34 | one record per index triple: record k has id k, vertices `triangles[3k..3k+2]` and the mean of their three elevations, with no downslope link yet |
| River.MeanElevationBounds | pages/mapgen-webgl-demo/river.ts:22 | a triangle's elevation is at least one corner's elevation and at most one corner's, so it lies between the lowest and the highest corner |
| River.HalfEdgeNeighbors | pages/mapgen-webgl-demo/river.ts:46-53 | the first e half-edges of a triangle contribute at most e neighbours |
| River.ComputeTriangleAdjacency | pages/mapgen-webgl-demo/river.ts:36-57 | the map has a key exactly for every triangle id, and each entry lists `floor(twin/3)` for each paired half-edge in order 0, 1, 2, skipping hull edges |
| River.PushNeighbors | pages/mapgen-webgl-demo/river.ts:46-53 | the inner half-edge loop yields exactly that triangle's neighbour list |
| River.NeighborsMembership | pages/mapgen-webgl-demo/river.ts:46-53 | b is listed for a iff some half-edge of a is paired with a half-edge of b |
| River.NeighborsInRange | pages/mapgen-webgl-demo/river.ts:42-54 | on a valid triangulation every list has at most 3 entries, each a triangle id |
| River.TwinLinksBack | pages/mapgen-webgl-demo/river.ts:48-51 | when the half-edge pairing is an involution, a half-edge of a paired into b has its twin in b paired back into a |
| River.AdjacencySymmetric | pages/mapgen-webgl-demo/river.ts:48-51 | b is a neighbour of a iff a is a neighbour of b |
| River.AdjacencyValid | pages/mapgen-webgl-demo/river.ts:36-57 | the adjacency of a valid triangulation covers every triangle and only names triangle ids |
| River.ScanLowestSpec | pages/mapgen-webgl-demo/river.ts:65-74 | the strict-`<` scan ends with no choice iff no neighbour is lower than the triangle; otherwise with a neighbour strictly below it, no higher than any neighbour, and strictly lower than every neighbour listed before it |
| River.LowestNeighborSpec | pages/mapgen-webgl-demo/river.ts:63-76 | `downslopeTo` is null iff no neighbour is strictly lower; otherwise it is the first minimum-elevation neighbour and lies below the triangle |
| River.AssignDownslope | pages/mapgen-webgl-demo/river.ts:59-77 | rewriting the records in place gives exactly the specified downslope list, a missing key counting as no neighbours |
| River.DownslopeDescends | pages/mapgen-webgl-demo/river.ts:68-75 | every downslope link points at a strictly lower triangle |
| River.DownstreamPath | pages/mapgen-webgl-demo/river.ts:88-91 | the chain from t is non-empty and starts at t; it terminates because the set of lower triangles shrinks |
| River.DownstreamPathShape | pages/mapgen-webgl-demo/river.ts:84-92 | a chain follows the links, descends strictly, never repeats a triangle, ends at a local minimum, and is no longer than one plus the number of triangles below its start |
| River.DownstreamPathBound | pages/mapgen-webgl-demo/river.ts:83-97 | a chain has at most as many entries as there are triangles |
| River.Dfs | pages/mapgen-webgl-demo/river.ts:84-93 | `dfs(id)` returns and stores the length of id's chain, grows the visited set by id and what it reaches, and leaves every triangle it does not newly visit unchanged |
| River.AssignFlow | pages/mapgen-webgl-demo/river.ts:79-98 | after the reset to 1 and the dfs sweep, every flow is the length of the triangle's downslope chain and nothing else changes |
| River.FlowRecurrence | pages/mapgen-webgl-demo/river.ts:80-92 | after assignFlow, flow is 1 at a local minimum and `1 + flow(downslopeTo)` elsewhere, and lies in [1, number of triangles] |
| River.RiverFrom | pages/mapgen-webgl-demo/river.ts:106-114 | the walked path is non-empty and starts at its triangle; it terminates because flow drops along it |
| River.WalkRiver | pages/mapgen-webgl-demo/river.ts:106-114 | the inner while loop builds exactly the specified path |
| River.Rivers | pages/mapgen-webgl-demo/river.ts:103-119 | every emitted path has more than one triangle |
| River.TraceRivers | pages/mapgen-webgl-demo/river.ts:100-122 | the loop emits exactly the specified rivers, in triangle order |
| River.RiverFromShape | pages/mapgen-webgl-demo/river.ts:109-114 | a walked path follows the downslope links with flow falling by one per step, keeps every member at or above minFlow, and is no longer than its start's flow |
| River.RiversMembership | pages/mapgen-webgl-demo/river.ts:103-119 | a path is emitted iff it is the walk from some triangle with flow ≥ minFlow and has length > 1 |
| River.RiversAscending | pages/mapgen-webgl-demo/river.ts:103-119 | at most one river per starting triangle, emitted in strictly ascending start order |
| River.RiverProperties | pages/mapgen-webgl-demo/river.ts:104-118 | every river has length ≥ 2 and all members with flow ≥ minFlow, each linked to the next by `downslopeTo` with one unit less flow |
| River.RiverSuffixEmitted | pages/mapgen-webgl-demo/river.ts:103-119 | the tail of a river of three or more triangles is itself emitted: overlapping rivers are not deduplicated |
| River.RiverDescends | pages/mapgen-webgl-demo/river.ts:109-113 | over descending links every river runs strictly downhill |
| River.Built | pages/mapgen-webgl-demo/river.ts:11-34 | the built list has one record per triple and ids equal to indices |
| River.Drained | pages/mapgen-webgl-demo/river.ts:129-132 | after downslope and flow assignment the list has descending links and consistent flow |
| River.GenerateRivers | pages/mapgen-webgl-demo/river.ts:124-134 | the pipeline returns exactly the traced rivers of the drained triangulation; each has length ≥ 2 and descends strictly |
| MapgenNoise.ElevationBand | pages/14-mapgen-webgl-demo/utils.ts:52-66 | the band is Water iff the elevation is below sea level; any other band starts at sea level plus its lower offset, and every band but snow ends before the next band's offset |
| MapgenNoise.ElevationColor | pages/14-mapgen-webgl-demo/utils.ts:50-69 | the colour is `#00a9ff` iff below sea level, `#ffd68f` iff in [seaLevel, seaLevel + 0.01), and so on up to `#9aa7ad` iff at or above seaLevel + 0.36; alpha is always 0.95 |
| MapgenNoise.ElevationBandIntervals | pages/14-mapgen-webgl-demo/utils.ts:52-66 | each band is exactly a half-open interval: water below sea level, then `[seaLevel + lower, seaLevel + next lower)` for offsets 0, 0.01, 0.04, 0.1, 0.29, 0.36, snow from seaLevel + 0.36 |
| MapgenNoise.SeaLevelIsShore | pages/14-mapgen-webgl-demo/utils.ts:52-56 | an elevation equal to sea level is shore, not water |
| MapgenNoise.ElevationBandMonotone | pages/14-mapgen-webgl-demo/utils.ts:52-66 | a higher elevation never gets a lower band |
| MapgenNoise.ElevationBandShift | pages/14-mapgen-webgl-demo/utils.ts:52-66 | the band depends only on `elevation - seaLevel` |
| MapgenNoise.Resolve | pages/14-mapgen-webgl-demo/utils.ts:81-88 | missing options default to scale 1, persistance 0.5, lacunarity 2, octaves 6, redistribution 1; every given option and the seed are kept |
| MapgenNoise.Fbm | pages/14-mapgen-webgl-demo/utils.ts:80-110 | fbm returns the octave sum raised to `redistribution`, divided by `max` |
| MapgenNoise.SumOctaves | pages/14-mapgen-webgl-demo/utils.ts:93-107 | the loop leaves `result` as the sum of the octaves and `max` as `1 + p + … + p^octaves` |
| MapgenNoise.AmplitudeSumAtLeastOne | pages/14-mapgen-webgl-demo/utils.ts:94-106 | with persistance ≥ 0, `max` is at least 1 |
| MapgenNoise.OctaveBounds | pages/14-mapgen-webgl-demo/utils.ts:98-103 | with noise in [-1, 1], octave i contributes a value in [0, persistance^i] |
| MapgenNoise.OctaveSumBounds | pages/14-mapgen-webgl-demo/utils.ts:93-107 | after k octaves the sum lies in [0, max − p^k] |
| MapgenNoise.FbmUnitRange | pages/14-mapgen-webgl-demo/utils.ts:108-109 | with redistribution 1, persistance ≥ 0 and noise in [-1, 1], fbm lies in [0, 1] |
| MapgenNoise.FbmNoOctaves | pages/14-mapgen-webgl-demo/utils.ts:98-109 | with 0 octaves and positive redistribution fbm returns 0 |
| NoiseFields.GenerateMoisture | pages/noise-map/utils.ts:86-100 | with noise in [-1, 1], non-negative weights and a positive weight sum, moisture lies in [0, 1] |
| NoiseFields.GenerateElevation | pages/noise-map/utils.ts:64-84 | elevation is moisture, computed from the same options, raised to `pow` |
| NoiseFields.NoiseE | pages/noise-map/utils.ts:58-62 | `noiseE` lies in [0, 1] when the noise lies in [-1, 1] |
| NoiseFields.MoistureIsWeightedAverage | pages/noise-map/utils.ts:86-100 | moisture is the weighted average of the six same-seed samples at frequencies 1 … 32, with weights e1 … e6 |
| NoiseFields.ElevationIsMoisturePow | pages/noise-map/utils.ts:64-84 | elevation is moisture's formula raised to `pow`; with pow 1 the two coincide |
| NoiseFields.DotBounds | pages/noise-map/utils.ts:89-95 | with non-negative weights and samples in [0, 1] the weighted sum lies in [0, sum of weights] |
| NoiseFields.WeightedAverageUnit | pages/noise-map/utils.ts:89-97 | such a weighted average with a positive weight sum lies in [0, 1] |
| NoiseFields.FieldsUnitRange | pages/noise-map/utils.ts:64-100 | moisture and elevation lie in [0, 1] for non-negative weights with a positive sum |
| NoiseFields.WeightedAverageScaleInvariant | pages/noise-map/utils.ts:89-97 | scaling every weight by the same non-zero factor leaves the average unchanged |
| NoiseFields.FieldsScaleInvariant | pages/noise-map/utils.ts:70-83 | scaling e1 … e6 by a positive factor changes neither field |
| NoiseMap.AssignColor | pages/noise-map/main.ts:82-108 | the biome is one of the biomes of the elevation's zone |
| NoiseMap.AssignColorInZone | pages/noise-map/main.ts:82-108 | every (e, m) gets one biome of e's zone: OCEAN below 0.1 and BEACH below 0.12 whatever the moisture, and e = 0.8 falls in the 0.6–0.8 zone |
| NoiseMap.AssignColorMoistureMonotone | pages/noise-map/main.ts:85-108 | at fixed elevation, more moisture never picks a drier entry of the zone's scale |
| NoiseMap.BiomeHexInjective | pages/noise-map/main.ts:62-80 | the fifteen colour constants are pairwise distinct |
| NoiseMap.NormalisedRange | pages/noise-map/main.ts:117-118 | for col < cols, `col/cols - 0.5` lies in [-0.5, 0.5) |
| NoiseMap.PictureCell | pages/noise-map/main.ts:115-137 | the render lists n·n cells row by row; cell (row, col) is drawn at (col·cellSize, row·cellSize) from normalised coordinates in [-0.5, 0.5) |
| NoiseMap.Demo.constructor | pages/noise-map/main.ts:37-49 | `cols = rows = floor(size/cellSize)` and the first render paints the picture, or nothing without a context |
| NoiseMap.Demo.Render | pages/noise-map/main.ts:111-148 | the nested loops append exactly the row-major picture, or nothing without a context |
| NoiseMap.Demo.PaintRow | pages/noise-map/main.ts:116-146 | the inner loop paints the cells of one row, left to right |
| NoiseMap.Demo.Rerender | pages/noise-map/main.ts:150-157 | adopts the parameters, recomputes cols and rows, and repaints from a cleared canvas |
| TerrainMap.BandOf | pages/terrain-map-generator/main.ts:56-70 | the band is water iff the elevation is at most `water.value`, and every band but snow has the elevation within its inclusive upper limit |
| TerrainMap.AssignColor | pages/terrain-map-generator/main.ts:52-71 | the colour is always one of the seven biome colours |
| TerrainMap.BandIsFirstFit | pages/terrain-map-generator/main.ts:56-70 | the band is the first whose `<=` limit the elevation meets; `water.value` itself is water and `water.value + shore` is shore |
| TerrainMap.BandMonotone | pages/terrain-map-generator/main.ts:56-70 | a higher elevation never gets a lower band, whatever the offsets |
| TerrainMap.DefaultBands | pages/terrain-map-generator/main.ts:150-179 | the default table gives the bands (-∞, 0.42], (0.42, 0.43], (0.43, 0.46], (0.46, 0.52], (0.52, 0.71], (0.71, 0.78], (0.78, ∞) |
| TerrainMap.RealElevation | pages/terrain-map-generator/main.ts:87-90 | `((e+1)/2)²` lies in [0, 1] for e in [-1, 1] |
| TerrainMap.RealElevationShape | pages/terrain-map-generator/main.ts:87-90 | the remap is the square of the midpoint map and is monotone on [-1, 1] |
| TerrainMap.Params.constructor | pages/terrain-map-generator/main.ts:131-180 | the parameter record holds the given cell size, sea level, elevation options and biome table |
| TerrainMap.Params.OnSeaLevelChange | pages/terrain-map-generator/main.ts:201-205 | a final change event sets `water.value` to 0.6 × value; other events and other fields are untouched |
| TerrainMap.SeaLevelHandlerEffect | pages/terrain-map-generator/main.ts:201-205 | after a final event, an elevation of exactly 0.6 × value is painted as water |
| TerrainMap.ElevationsShape | pages/terrain-map-generator/main.ts:77-92 | a render of n × n cells pushes n·n elevations row by row, each the remap of that cell's fbm and in [0, 1] |
| TerrainMap.Demo.constructor | pages/terrain-map-generator/main.ts:28-40 | `cols = rows = floor(size/cellSize)` and the first render paints the row-major grid |
| TerrainMap.Demo.Render | pages/terrain-map-generator/main.ts:73-117 | the pushed elevations and the painted cells are exactly the row-major grids, or nothing without a context |
| TerrainMap.Demo.PaintRow | pages/terrain-map-generator/main.ts:80-113 | the inner loop pushes and paints one row |
| TerrainMap.Demo.Rerender | pages/terrain-map-generator/main.ts:119-128 | adopts the parameters, recomputes cols and repaints |
| BlockTerrain.NoiseLog.constructor | pages/7-block-terrain/main.ts:23-24 | both logs start empty |
| BlockTerrain.NoiseLog.GetNoiseValue | pages/7-block-terrain/main.ts:26-33 | appends exactly the raw sample to `values` and the returned `((v+1)/2)²` to `powValues` |
| BlockTerrain.NoiseValueRange | pages/7-block-terrain/main.ts:27-29 | for samples in [-1, 1] the returned value lies in [0, 1] and keeps their order |
| BlockTerrain.GetColor | pages/7-block-terrain/main.ts:177-223 | in height-map mode the ramp position of the height; otherwise the band of the `<=` chain keyed on `water.value`, that band's colour, and the height's lightness factor |
| BlockTerrain.RampPercent | pages/7-block-terrain/main.ts:180-185 | the ramp position is `(height − 0.075) · 2` |
| BlockTerrain.Lightness | pages/7-block-terrain/main.ts:209-218 | the factor is 1 above the water level, and within [0, 1.4] from 1/1.3 below the level up to the level |
| BlockTerrain.RampEnds | pages/7-block-terrain/main.ts:180-185 | the height-map ramp position is 0 at height 0.075, 1 at 0.575, and linear in between |
| BlockTerrain.LightnessByBand | pages/7-block-terrain/main.ts:187-219 | the band is water iff height ≤ `water.value`; every other band keeps lightness 1; the water level itself is brightened by 1.4 |
| BlockTerrain.LightnessUnderWater | pages/7-block-terrain/main.ts:209-218 | down to 1/1.3 below the water level, deeper blocks are never lighter and the factor stays in [0, 1.4] |
| BlockTerrain.CeilCount | pages/7-block-terrain/main.ts:243-244 | the unit-step loop from -ts/2 while below ts/2 runs `ceil(ts)` times |
| BlockTerrain.TerrainSize | pages/7-block-terrain/main.ts:241 | `terrainSize = max(500·resolution, 20)` |
| BlockTerrain.CreateSurface | pages/7-block-terrain/main.ts:235-249 | the nested loops return exactly the specified surface and the scale `8 / terrainSize` |
| BlockTerrain.SurfaceColumn | pages/7-block-terrain/main.ts:244-246 | the inner loop pushes the `ceil(ts)` points of one x |
| BlockTerrain.SquareGridShape | pages/7-block-terrain/main.ts:243-247 | there are `ceil(ts)²` points, x outer and y inner, at unit spacing from (-ts/2, -ts/2) |
| BlockTerrain.SurfaceBounds | pages/7-block-terrain/main.ts:243-244 | every point has `-ts/2 ≤ x, y < ts/2` |
| BlockTerrain.SurfaceScaleBound | pages/7-block-terrain/main.ts:241-242 | `scale · terrainSize = 8` and `0 < scale ≤ 0.4` |
| BlockTerrain.BlockPlacement | pages/7-block-terrain/main.ts:271-284 | each block sits on its surface point at `z = 30·realHeight` in [0, 30·height], coloured by its real height |
| BlockTerrain.DefaultLayout | pages/7-block-terrain/main.ts:88-130 | the default table gives bands with limits 0.12, 0.13, 0.16, 0.22, 0.41, 0.48; the default surface is 150 wide with 22500 points; the library runs with persistance 0.4 and lacunarity 2 |
| BlockTerrain.View.constructor | pages/7-block-terrain/main.ts:66-137 | default parameters, then one block per surface point, the mesh scale `8 / terrainSize`, and one sample and its remap logged per point |
| BlockTerrain.View.CreateDataBlock | pages/7-block-terrain/main.ts:251-290 | samples every surface point once, in order, at `point · scale · generationScale` with persistance `2·fuzzyness` and lacunarity `4·detail`; places one block per point; logs each sample and its remap |
| BlockTerrain.View.Generate | pages/7-block-terrain/main.ts:225-233 | drops the old mesh and rebuilds it from the current parameters: the blocks, the mesh scale and both log extensions are those of createDataBlock |
| BlockTerrain.SampleSurface | pages/7-block-terrain/main.ts:271-284 | the `surface.map` callback yields exactly the specified blocks and extends both logs by one entry per point |
| GpuPicking.SetHex | pages/13-gpu-picking/main.ts:151 | each channel of `setHex` lies in [0, 1] |
| GpuPicking.IdColor | pages/13-gpu-picking/main.ts:151 | for i < 2^24 − 1 the three bytes of instance i's colour, read as a base-256 number, give i + 1 |
| GpuPicking.DecodeId | pages/13-gpu-picking/main.ts:238-239 | a decoded id lies in [-1, 2^24 − 1), and it is -1 iff the pixel is black |
| GpuPicking.ShiftOrIsSum | pages/13-gpu-picking/main.ts:238 | or-ing the three shifted bytes equals adding them |
| GpuPicking.DecodeHex | pages/13-gpu-picking/main.ts:238-239 | decoding the bytes of a hex colour gives the hex value modulo 2^24, minus one |
| GpuPicking.IdRoundTrip | pages/13-gpu-picking/main.ts:238-239 | for i < 2^24 − 1 the decode inverts the encoding `i + 1`; black decodes to -1; no instance is black |
| GpuPicking.IdColorsWrap | pages/13-gpu-picking/main.ts:151 | instances i and i + 2^24 share a colour |
| GpuPicking.DecodeInjective | pages/13-gpu-picking/main.ts:238-239 | distinct pixels decode to distinct ids |
| GpuPicking.RandomizeMatrix | pages/13-gpu-picking/main.ts:203-211 | with draws in [0, 1) and a positive spread, the position lies in [-dist/2, dist/2) on each axis |
| GpuPicking.RandomizeMatrixBounds | pages/13-gpu-picking/main.ts:203-211 | every position lies in [-dist/2, dist/2) on each axis |
| GpuPicking.RepeatTriples | pages/13-gpu-picking/main.ts:170-175 | every vertex triple of a filled buffer is (r, g, b) |
| GpuPicking.ColorBuffer | pages/13-gpu-picking/main.ts:181-186 | the `j += 3` loop fills a fresh buffer of 3·n entries with the colour at every vertex |
| GpuPicking.PickSpec | pages/13-gpu-picking/main.ts:213-266 | nothing changes while `mouse.x == -1`; any change remembers the decoded id if it indexes a cube and nothing otherwise; the highlight stays consistent with `lastId` |
| GpuPicking.PickOutcome | pages/13-gpu-picking/main.ts:213-266 | pick does nothing when `mouse.x == -1` or the id equals `lastId`; otherwise it remembers and shows an id iff it indexes a cube, and hides and forgets otherwise |
| GpuPicking.PickPreservesConsistency | pages/13-gpu-picking/main.ts:241-261 | pick keeps "highlight visible iff `lastId` is set, and then on that cube" |
| GpuPicking.PickIdempotent | pages/13-gpu-picking/main.ts:241-261 | reading the same pixel twice changes nothing the second time |
| GpuPicking.PickFindsCube | pages/13-gpu-picking/main.ts:238-261 | the pixel of cube i selects cube i and moves the highlight onto it; black selects nothing |
| GpuPicking.View.constructor | pages/13-gpu-picking/main.ts:46-102 | default parameters, mouse at (-1, -1), no selection, hidden highlight, `count` cubes with picking colours `i + 1` and no merged buffers |
| GpuPicking.View.InitScene | pages/13-gpu-picking/main.ts:111-126 | empties both groups, forgets the selection, hides the highlight, rebuilds `count` cubes, and sets the picking colours `i + 1` of the current mode while the other mode's picking data stays empty |
| GpuPicking.View.AddInstanced | pages/13-gpu-picking/main.ts:128-155 | one transform and one picking colour `i + 1` per instance |
| GpuPicking.View.AddMerged | pages/13-gpu-picking/main.ts:157-201 | one transform and one picking buffer filled with colour `i + 1` per cube |
| GpuPicking.View.Pick | pages/13-gpu-picking/main.ts:213-266 | the selection after `pick()` is the one the pick rules give, and the highlight stays consistent with `lastId` |
| GpuPicking.View.OnPointerMove | pages/13-gpu-picking/main.ts:268-274 | the mouse position is the pointer's |
| GpuPicking.View.OnCountChange | pages/13-gpu-picking/main.ts:307-311 | the count is stored on every event; only a final event rebuilds the scene |
| GpuPicking.View.OnDistChange | pages/13-gpu-picking/main.ts:312-316 | the spread is stored on every event; only a final event rebuilds the scene |
| GpuPicking.View.OnModeChange | pages/13-gpu-picking/main.ts:302-306 | every mode change rebuilds the scene |
| GlFilter.SetupScale | pages/gl-filter/main.ts:179-189 | at most one axis is scaled and both factors lie in (0, 1] |
| GlFilter.SetupScaleShape | pages/gl-filter/main.ts:179-189 | at most one axis is scaled; both factors lie in (0, 1]; the wide case scales x by h/w and the tall case scales y by w/h |
| GlFilter.FitScale | pages/gl-filter/main.ts:118-136 | one factor is 1 and both lie in (0, 1] |
| GlFilter.FitScaleShape | pages/gl-filter/main.ts:118-136 | the larger factor is 1, both lie in (0, 1], and `scaleX/scaleY = imageAspect/screenAspect` |
| GlFilter.RescaleFixes | pages/gl-filter/main.ts:198-199 | 0.5 is a fixed point, factor 1 is the identity, and factor 1/s undoes s |
| GlFilter.RescaleWindow | pages/gl-filter/main.ts:198-199 | with a factor in (0, 1], a coordinate in [0, 1] lands in the centred window of width s inside [0, 1] |
| GlFilter.RescaledUvs | pages/gl-filter/main.ts:191-204 | the buffer keeps its length, a coordinate at the centre 0.5 stays put, and scale (1, 1) changes nothing |
| GlFilter.RewriteUvs | pages/gl-filter/main.ts:191-204 | the `i += 2` loop rewrites every (u, v) pair in place, u by scaleX and v by scaleY |
| GlFilter.SetupRewriteBounds | pages/gl-filter/main.ts:178-204 | after the setup crop, coordinates in [0, 1] stay in [0, 1] and the unscaled axis is unchanged |
| GlFilter.Filter.constructor | pages/gl-filter/main.ts:20-25 | the image size starts at 0 and there is no mesh yet |
| GlFilter.Filter.Setup | pages/gl-filter/main.ts:138-206 | records the image size, builds the mesh at scale 1, and crops the texture coordinates by the setup scale |
| GlFilter.Filter.UpdateMeshUVs | pages/gl-filter/main.ts:118-136 | the mesh scale becomes the aspect fit of the image into the screen |
| BuildingExplode.StepsBounds | pages/15-building-explode-effect/main.ts:398-399 | the loop variable never starts below its start and never passes its bound |
| BuildingExplode.Skipped | pages/15-building-explode-effect/main.ts:400-401 | a position is skipped iff -5 < x < 5 and -4 < z < 4 |
| BuildingExplode.ColumnRowMembers | pages/15-building-explode-effect/main.ts:399-401 | the z loop of one x places a column at every visited z outside the core margin |
| BuildingExplode.ColumnGridMembers | pages/15-building-explode-effect/main.ts:398-413 | a position gets a column iff it is on the loop lattice and not both within 5 of the centre in x and within 4 in z |
| BuildingExplode.DefaultColumns | pages/15-building-explode-effect/main.ts:398-401 | on the 40 × 25 slab the loops visit x ∈ {-18, -6, 6, 18} and z ∈ {-10.5, -0.5, 9.5}, and all twelve columns are placed |
| BuildingExplode.GenerateColumns | pages/15-building-explode-effect/main.ts:398-413 | the nested loops place exactly the specified columns, x outer |
| BuildingExplode.GenerateColumnRow | pages/15-building-explode-effect/main.ts:399-412 | the inner loop with its `continue` places the columns of one x |
| BuildingExplode.FirstWall | pages/15-building-explode-effect/main.ts:134 | `getObjectByName` finds the first child named ExteriorWall, or none |
| BuildingExplode.BuildingLayout | pages/15-building-explode-effect/main.ts:292-345 | there are floorCount + 1 groups; group k has id k, `originalY = y = k·floorHeight` and scale 1; it is a floor with the wall as third child iff it is not the top one, the roof |
| BuildingExplode.ExplodeTarget | pages/15-building-explode-effect/main.ts:120-122 | explode 0 and the ground group keep the original height; a positive explode and spacing lift every higher group |
| BuildingExplode.ExplodeSpacing | pages/15-building-explode-effect/main.ts:118-129 | explode 0 restores the original heights, and consecutive groups end `floorHeight + explode·spacing` apart |
| BuildingExplode.CameraAim | pages/15-building-explode-effect/main.ts:176-197 | selecting group i aims the camera at it from 30 above; an id no group carries leaves the camera alone |
| BuildingExplode.SelectOpacity | pages/15-building-explode-effect/main.ts:160-170 | the opacity is 0.05 iff the floor is neither chosen nor all are, 1 iff chosen and opaque, and always within [0.05, 1] |
| BuildingExplode.SelectRules | pages/15-building-explode-effect/main.ts:148-175 | scale is 1 iff the floor is chosen or none is, else 0.8; meshes of other floors fade to 0.05; chosen transparent meshes go to 0.15 (wall) or 0.3; opaque ones go to 1; non-meshes are untouched |
| BuildingExplode.WallOpacity | pages/15-building-explode-effect/main.ts:140-143 | the wall opacity is 0.05 iff the floor is not shown as selected, and 1 iff shown as selected in Solid mode |
| BuildingExplode.ViewModeRules | pages/15-building-explode-effect/main.ts:131-146 | each floor's wall gets glass or the solid material and opacity 0.15/1 when selected or none is selected, else 0.05; the roof and other children are untouched |
| BuildingExplode.WallOpacityAgreement | pages/15-building-explode-effect/main.ts:140-170 | the wall opacities of selectFloor and updateViewMode agree in Transparent mode and for unselected floors; in Solid mode a chosen wall still gets 0.15 from selectFloor, not 1 |
| BuildingExplode.Decimal | pages/15-building-explode-effect/main.ts:527 | the decimal form of a number is non-empty |
| BuildingExplode.FloorOptionsSpec | pages/15-building-explode-effect/main.ts:525-528 | floorCount + 1 options, None (-1) first, then option k with value k − 1 |
| BuildingExplode.FloorOptions | pages/15-building-explode-effect/main.ts:525-528 | the option loop yields None first, then `Floor k+1` for each floor below the roof |
| BuildingExplode.FloorOptionValues | pages/15-building-explode-effect/main.ts:525-528 | the offered values are exactly -1 and the ids below floorCount (never the roof), labelled `Floor k` for value k − 1 |
| BuildingExplode.View.constructor | pages/15-building-explode-effect/main.ts:56-116 | default parameters, overview camera, and the generated building |
| BuildingExplode.View.GenerateBuilding | pages/15-building-explode-effect/main.ts:288-346 | appends exactly the floorCount + 1 groups of the building |
| BuildingExplode.View.UpdateExplode | pages/15-building-explode-effect/main.ts:118-129 | each group ends at its explode target |
| BuildingExplode.View.UpdateViewMode | pages/15-building-explode-effect/main.ts:131-146 | each wall gets its view-mode material and opacity |
| BuildingExplode.View.FadeParts | pages/15-building-explode-effect/main.ts:160-174 | the traversal sets the opacity of every mesh child |
| BuildingExplode.View.SelectFloor | pages/15-building-explode-effect/main.ts:148-219 | every floor is scaled and faded; the camera goes to the chosen floor, or back to the overview for -1 |
| BuildingExplode.View.OnViewModeChange | pages/15-building-explode-effect/main.ts:505-512 | stores the mode and reapplies the view mode |
| BuildingExplode.View.OnExplodeChange | pages/15-building-explode-effect/main.ts:514-523 | stores the factor and moves the floors |
| BuildingExplode.View.OnFloorChange | pages/15-building-explode-effect/main.ts:530-537 | stores the selection and selects that floor |
| BuildingExplode.View.Reset | pages/15-building-explode-effect/main.ts:539-548 | restores the default parameters, then explodes, view-modes and selects with them |
| BuildingExplode.ResetRestores | pages/15-building-explode-effect/main.ts:539-548 | after Reset every group is at its original height and full size, every wall is glass at 0.15, and other transparent meshes are at 0.3 |
| PageIndex.Filter | main.ts:172-178 | the result is no longer than the input and holds only passing pages taken from it |
| PageIndex.FilterKeeps | main.ts:170-178 | a filter keeps exactly the passing pages, in their original order |
| PageIndex.FilterIdempotent | main.ts:172-178 | filtering twice with the same test equals filtering once |
| PageIndex.FilterCommutes | main.ts:172-178 | the two filters may be applied in either order |
| PageIndex.FilterPages | main.ts:170-178 | with the featured toggle every shown page is featured, with the AI toggle every shown page sets `ai`, and with neither the list is unchanged |
| PageIndex.FilterPagesRules | main.ts:170-178 | the shown list is a subsequence of the pages; a page is shown iff it passes each active filter; no flags show everything; the result is idempotent and order-independent |
| PageIndex.NoAiShown | main.ts:176-177 | without a page that sets `ai`, the AI filter shows nothing |
| PageIndex.NoAiPages | main.ts:10-121 | the fifteen listed pages never set `ai`, so the AI filter always yields an empty grid |
| PageIndex.CardClass | main.ts:125 | the class starts with `page-card ` and is longer iff the page is featured |
| PageIndex.CardClassRule | main.ts:125 | the class is `page-card featured` iff the page is featured, else `page-card ` with a trailing space |
| PageIndex.TagsHtml | main.ts:128-135 | '' without tags or with an empty list; non-empty when there is a tag |
| PageIndex.TagsHtmlShape | main.ts:128-135 | one chip per tag in order, only the first marked `tech-tag`, joined with ''; '' without tags |
| PageIndex.TagSpanMarks | main.ts:132 | the first chip differs from a plain chip by the 8 characters of `tech-tag` |
| PageIndex.BadgeRules | main.ts:136-139 | the Featured badge appears iff `featured`, the AI badge iff `ai` |
| PageIndex.Cards | main.ts:180-183 | one card per shown page |
| PageIndex.CardsFollowPages | main.ts:123-159 | card i links to and is titled by page i, and its class and badges follow that page's flags |
| PageIndex.Index.constructor | main.ts:10-121 | the index holds the fifteen listed pages |
| PageIndex.Index.RenderPages | main.ts:161-184 | the grid is cleared and then holds exactly one card per filtered page, in order; without a grid nothing changes |
| PageIndex.Index.Initialize | main.ts:186-210 | the first render and every toggle change render with the toggles' states, a missing toggle counting as unchecked |

## Left out

- Rendering is not modelled. That covers the three.js and OGL scene graphs, cameras, lights,
  materials, render targets, instanced-matrix writes, canvas `fillRect`/`strokeRect` and
  `innerHTML`/`appendChild`. The model keeps what is drawn: cells, blocks, cards and picking colours.
- Tweens are not modelled. Each gsap tween is its final state. The camera target of `selectFloor`
  uses a floor's height at call time, not the height it is still tweening to.
- Panels, listeners and animation frames are not modelled. These are the Tweakpane panels, resize
  listeners, `requestAnimationFrame` loops and `console.log`. Change handlers are methods called
  with the event's values.
- The rotating `rotate` option of the GPU picking demo is not modelled.
- The change events that `pane.refresh()` may emit during Reset would repeat the same three updates;
  they are not modelled.
- Foreign libraries become function parameters:
  - simplex noise with its `alea` generator, the `FBM` class of `lib/three-noise`, and
    `Math.random`, with noise assumed in [-1, 1] where a lemma needs it;
  - the `fbm` of `terrain-map-generator/utils.ts`, which is not part of this model;
  - d3-delaunay's triangulation, taken as its `triangles`/`halfedges` arrays.
- Colour conversions are not modelled. `Color`, HSL, the height-map `lerpHSL` and hex strings in
  the `getColor` functions are replaced by the band or ramp position and the lightness factor.
- The merged-mode visual colour buffers (random HSL) are not modelled. The same fill loop is
  modelled for the picking buffers.
- The pick decode reads the RGBA byte buffer as the pixel passed to `Pick`. Its bitwise `|` is
  written as a sum, which is equal for bytes (`ShiftOrIsSum`).
- `pages/grayscale/main.ts` and `pages/12-shader-earth/main.ts` are not modelled. Their logic is GLSL.
- The desks and rooms of `generateRealInterior` are not modelled; the column grid is. The floor
  record omits these meshes, so SelectRules and ResetRestores do not cover them. `selectFloor`'s
  traversal does fade them: the transparent desks and room floors go to 0.3 on a chosen floor and
  0.05 elsewhere.
- The markup template of a card is not modelled. A card is modelled by its link, title,
  description, class, tags string and badges.
- `updateMeshUVs` is modelled though nothing in the file calls it.
- Every floating-point value is a real number, so there is no rounding, `Infinity` or `NaN`.
  `Math.pow` exponents are natural numbers, so fractional exponents such as the noise map's
  default `elevationPow` of 3.2 are outside the model.
- MapgenNoise.Fbm: requires a non-zero `max`. With a negative persistance `max` can be 0, and the
  source would return `Infinity` or `NaN`.
- NoiseFields.GenerateMoisture and NoiseFields.GenerateElevation: require a non-zero weight sum.
  An all-zero weight set divides by zero in the source.
- GlFilter.Filter.Setup and GlFilter.Filter.UpdateMeshUVs: require positive image and screen
  sizes, and UpdateMeshUVs requires a built mesh. The source divides by sizes that start at 0.
- BuildingExplode.Decimal: only its non-emptiness is stated. That distinct floors get distinct
  labels is not proved.
- River.Dfs: the recursion is on the call stack, as in the source; stack depth is not modelled.
