/** The block terrain (pages/7-block-terrain/main.ts): a square of unit blocks whose heights come
    from fractal noise, coloured by sea-level bands and darkened under water. */
module BlockTerrain {
  import opened Common
  import MapgenNoise
  import TerrainMap

  type Band = MapgenNoise.Band

  // -------------------------------------------------------------------- getNoiseValue

  /** `new FBM({ seed, persistance, lacunarity })`: the library object's settings. */
  datatype FbmConfig = FbmConfig(seed: real, persistance: real, lacunarity: real)

  /** `fbm.get2(v)` of the three-noise library, which is not part of this model: a function of
      the settings and the sample point. */
  type FbmLibrary = (FbmConfig, real, real) -> real

  datatype Point = Point(x: real, y: real)

  /** The page's two module-level arrays: every raw noise sample and every squared remap, in the
      order `getNoiseValue` was called. */
  class NoiseLog {
    var values: seq<real>
    var powValues: seq<real>

    constructor()
      ensures values == [] && powValues == []
    {
      values := [];
      powValues := [];
    }

    /** `getNoiseValue(fbm, v)`: sample, map [-1, 1] onto [0, 1] and square (the same remap as
        the terrain map's elevation), log both numbers, and return the square. */
    method GetNoiseValue(library: FbmLibrary, config: FbmConfig, v: Point) returns (powValue: real)
      modifies this
      ensures values == old(values) + [library(config, v.x, v.y)]
      ensures powValues == old(powValues) + [powValue]
      ensures powValue == TerrainMap.RealElevation(library(config, v.x, v.y))
    {
      var value := library(config, v.x, v.y);
      powValue := TerrainMap.RealElevation(value);
      values := values + [value];
      powValues := powValues + [powValue];
    }
  }

  /** A logged value lies in [0, 1] whenever its raw sample lies in [-1, 1], and the remap is
      monotone there, so the logs keep the order of the samples. */
  lemma NoiseValueRange(v1: real, v2: real)
    requires -1.0 <= v1 <= v2 <= 1.0
    ensures 0.0 <= TerrainMap.RealElevation(v1) <= TerrainMap.RealElevation(v2) <= 1.0
  {
    TerrainMap.RealElevationShape(v1, v2);
  }

  // ------------------------------------------------------------------------- getColor

  /** The colour `getColor` builds: a hue ramp position in height-map mode, or a band's colour
      with its lightness scaled by a factor. */
  datatype Shade = Ramp(percent: real) | Banded(band: Band, color: string, lightness: real)

  /** `precent`, the position on the violet-to-red ramp in height-map mode. */
  function RampPercent(height: real): (percent: real)
    ensures percent == (height - 0.075) * 2.0
  {
    (height - 0.05) / 0.5 - 0.05
  }

  /** `mapLinear(pow(1 - (water - h) * 1.3, 6), 0, 1, 0, 1.4)` at or below the water level, 1
      above it. */
  function Lightness(water: real, height: real): (l: real)
    ensures height > water ==> l == 1.0
    ensures water - 1.0 / 1.3 <= height <= water ==> 0.0 <= l <= 1.4
  {
    if height <= water then
      var base := 1.0 - (water - height) * 1.3;
      DimmingBase(base);
      (Pow(base, 6) - 0.0) * (1.4 - 0.0) / (1.0 - 0.0) + 0.0
    else 1.0
  }

  /** The sixth power of a base no higher than 1 lies in [0, 1] once the base is non-negative. */
  lemma DimmingBase(base: real)
    requires base <= 1.0
    ensures 0.0 <= base ==> 0.0 <= Pow(base, 6) <= 1.0
  {
    if 0.0 <= base {
      PowUnitInterval(base, 6);
    }
  }

  /** `getColor(height)`: in height-map mode the ramp position; otherwise the `<=` band chain
      keyed on `colors.water.value`, dimmed under water. */
  function GetColor(colors: TerrainMap.Biomes, heightMap: bool, height: real): (s: Shade)
    ensures !heightMap ==> s.Banded? && s.color == TerrainMap.EntryOf(colors, s.band).color
    ensures !heightMap ==> s.band == TerrainMap.BandOf(colors, height)
    ensures !heightMap ==> s.lightness == Lightness(colors.water.value, height)
    ensures heightMap ==> s == Ramp(RampPercent(height))
  {
    if heightMap then Ramp(RampPercent(height))
    else
      var band := TerrainMap.BandOf(colors, height);
      Banded(band, TerrainMap.EntryOf(colors, band).color, Lightness(colors.water.value, height))
  }

  /** The ramp is at its violet end at height 0.075, at its red end at 0.575, and moves
      linearly in between. */
  lemma RampEnds(h1: real, h2: real)
    requires h1 <= h2
    ensures RampPercent(0.075) == 0.0 && RampPercent(0.575) == 1.0
    ensures RampPercent(h2) - RampPercent(h1) == (h2 - h1) * 2.0
  {
  }

  /** Dimming happens exactly in the water band: every other band keeps its lightness, and the
      water surface itself is brightened by 1.4. */
  lemma LightnessByBand(colors: TerrainMap.Biomes, height: real)
    ensures var s := GetColor(colors, false, height);
      s.band == MapgenNoise.Water <==> height <= colors.water.value
    ensures var s := GetColor(colors, false, height);
      s.band != MapgenNoise.Water ==> s.lightness == 1.0
    ensures GetColor(colors, false, colors.water.value).lightness == 1.4
  {
    assert Pow(1.0, 6) == 1.0 by {
      PowUnitInterval(1.0, 6);
      PowMonotone(1.0, 1.0, 6);
      assert Pow(1.0, 1) == 1.0;
      assert Pow(1.0, 2) == 1.0;
      assert Pow(1.0, 3) == 1.0;
      assert Pow(1.0, 4) == 1.0;
      assert Pow(1.0, 5) == 1.0;
    }
  }

  /** Down to 1 / 1.3 below the water level, deeper blocks are never lighter, and the factor
      stays within [0, 1.4]. */
  lemma LightnessUnderWater(water: real, h1: real, h2: real)
    requires water - 1.0 / 1.3 <= h1 <= h2 <= water
    ensures 0.0 <= Lightness(water, h1) <= Lightness(water, h2) <= 1.4
  {
    var a, b := 1.0 - (water - h1) * 1.3, 1.0 - (water - h2) * 1.3;
    assert 0.0 <= a <= b <= 1.0;
    PowMonotone(a, b, 6);
    PowUnitInterval(a, 6);
    PowUnitInterval(b, 6);
  }

  // -------------------------------------------------------------------- createSurface

  /** `Math.ceil` of a non-negative number. */
  function Ceil(r: real): nat
    requires 0.0 <= r
  {
    if r.Floor as real == r then r.Floor else r.Floor + 1
  }

  /** An integer count stays below r exactly when it stays below `ceil(r)`: the number of unit
      steps from -r/2 that remain below r/2. */
  lemma CeilCount(r: real, i: int)
    requires 0.0 <= r
    ensures (i as real) < r <==> i < Ceil(r)
  {
    if r.Floor as real == r {
      assert (i as real) < r <==> i < r.Floor;
    } else {
      assert (i as real) < r <==> i <= r.Floor;
    }
  }

  /** `Math.max(500 * resolution, 20)`. */
  function TerrainSize(resolution: real): (ts: real)
    ensures 20.0 <= ts && 500.0 * resolution <= ts
    ensures ts == 20.0 || ts == 500.0 * resolution
  {
    if 500.0 * resolution > 20.0 then 500.0 * resolution else 20.0
  }

  /** `VISIBLE_MAP_SIZE / terrainSize`. */
  function SurfaceScale(resolution: real): real
  {
    8.0 / TerrainSize(resolution)
  }

  /** The point pushed on the outer step i, inner step j. */
  function SurfacePoint(ts: real): (nat, nat) -> Point
  {
    (i: nat, j: nat) => Point(-ts / 2.0 + i as real, -ts / 2.0 + j as real)
  }

  /** The points of `createSurface`: x in the outer loop, y in the inner, each stepping by one
      from `-terrainSize / 2` while below `terrainSize / 2`. */
  function Surface(resolution: real): seq<Point>
  {
    SquareGrid(TerrainSize(resolution), Ceil(TerrainSize(resolution)))
  }

  /** n x n points of unit spacing from (-ts/2, -ts/2), x-major. */
  function SquareGrid(ts: real, n: nat): seq<Point>
  {
    RowMajor(n, n, SurfacePoint(ts))
  }

  /** `createSurface()`, loops as written. */
  method CreateSurface(resolution: real) returns (surface: seq<Point>, scale: real)
    ensures surface == Surface(resolution) && scale == SurfaceScale(resolution)
  {
    var terrainSize := if 500.0 * resolution > 20.0 then 500.0 * resolution else 20.0;
    scale := 8.0 / terrainSize;
    surface := [];
    ghost var n := Ceil(terrainSize);
    ghost var f := SurfacePoint(terrainSize);
    ghost var i: nat := 0;
    var x := -terrainSize / 2.0;
    while x < terrainSize / 2.0
      invariant x == -terrainSize / 2.0 + i as real && i <= n
      invariant surface == RowMajor(i, n, f)
      decreases n - i
    {
      CeilCount(terrainSize, i);
      var column := SurfaceColumn(terrainSize, x, i);
      surface := surface + column;
      x := x + 1.0;
      i := i + 1;
    }
    CeilCount(terrainSize, i);
  }

  /** The inner loop of `createSurface` at one x. */
  method SurfaceColumn(terrainSize: real, x: real, ghost i: nat) returns (column: seq<Point>)
    requires 20.0 <= terrainSize && x == -terrainSize / 2.0 + i as real
    ensures column == RowOf(i, Ceil(terrainSize), SurfacePoint(terrainSize))
  {
    ghost var n := Ceil(terrainSize);
    ghost var row := RowOf(i, n, SurfacePoint(terrainSize));
    ghost var j: nat := 0;
    column := [];
    var y := -terrainSize / 2.0;
    while y < terrainSize / 2.0
      invariant y == -terrainSize / 2.0 + j as real && j <= n
      invariant column == row[..j]
      decreases n - j
    {
      CeilCount(terrainSize, j);
      column := column + [Point(x, y)];
      assert row[..j + 1] == row[..j] + [row[j]];
      y := y + 1.0;
      j := j + 1;
    }
    CeilCount(terrainSize, j);
    assert row[..j] == row;
  }

  /** The surface grid has n x n points, listed x-major: x steps with the outer index. */
  lemma SquareGridShape(ts: real, n: nat, i: nat, j: nat)
    requires i < n && j < n
    ensures |SquareGrid(ts, n)| == n * n && i * n + j < n * n
    ensures SquareGrid(ts, n)[i * n + j] == Point(-ts / 2.0 + i as real, -ts / 2.0 + j as real)
  {
    RowMajorAt(n, n, SurfacePoint(ts), i, j);
  }

  /** Every surface point lies in the half-open square [-ts/2, ts/2). */
  lemma SurfaceBounds(ts: real, i: nat, j: nat)
    requires 0.0 <= ts && i < Ceil(ts) && j < Ceil(ts)
    ensures -ts / 2.0 <= -ts / 2.0 + i as real < ts / 2.0
    ensures -ts / 2.0 <= -ts / 2.0 + j as real < ts / 2.0
  {
    CeilCount(ts, i);
    CeilCount(ts, j);
  }

  /** The scale maps the whole side onto 8 units and is at most 0.4. */
  lemma SurfaceScaleBound(resolution: real)
    ensures SurfaceScale(resolution) * TerrainSize(resolution) == 8.0
    ensures 0.0 < SurfaceScale(resolution) <= 0.4
  {
    var ts := TerrainSize(resolution);
    assert 8.0 / ts <= 8.0 / 20.0;
  }

  // ------------------------------------------------------------------ createDataBlock

  /** `params.generation`. */
  datatype Generation = Generation(seed: real, height: real, scale: real, detail: real,
                                   fuzzyness: real, resolution: real)

  /** The library settings `createDataBlock` derives from the generation panel. */
  function FbmConfigOf(g: Generation): FbmConfig
  {
    FbmConfig(g.seed, g.fuzzyness * 2.0, g.detail * 4.0)
  }

  /** What drives every sample of one generation: the library settings, the factor the
      surface points are scaled by, and the height the squared remap is multiplied by. */
  datatype Sampling = Sampling(config: FbmConfig, factor: real, height: real)

  /** The sampling of `createDataBlock`: points are scaled by the surface scale times the
      generation scale. */
  function SamplingOf(g: Generation): Sampling
  {
    Sampling(FbmConfigOf(g), SurfaceScale(g.resolution) * g.scale, g.height)
  }

  /** `createDataBlock`'s own computation of the sampling. */
  lemma SamplingStep(g: Generation, scale: real, s: Sampling)
    requires scale == SurfaceScale(g.resolution)
    requires s == Sampling(FbmConfig(g.seed, g.fuzzyness * 2.0, g.detail * 4.0), scale * g.scale, g.height)
    ensures s == SamplingOf(g)
  {
  }

  /** One instanced block: its position before the mesh is turned upright, and its colour. */
  datatype Block = Block(x: real, y: real, z: real, shade: Shade)

  /** `point.clone().multiplyScalar(k)`. */
  function Scaled(p: Point, k: real): Point
  {
    Point(p.x * k, p.y * k)
  }

  /** The raw sample taken for a surface point. */
  function SampleAt(library: FbmLibrary, s: Sampling, p: Point): real
  {
    var q := Scaled(p, s.factor);
    library(s.config, q.x, q.y)
  }

  /** The block placed for a surface point. */
  function BlockAt(colors: TerrainMap.Biomes, heightMap: bool, library: FbmLibrary, s: Sampling,
                   p: Point): Block
  {
    var realHeight := TerrainMap.RealElevation(SampleAt(library, s, p)) * s.height;
    Block(p.x, p.y, realHeight * 30.0, GetColor(colors, heightMap, realHeight))
  }

  function Samples(library: FbmLibrary, s: Sampling, pts: seq<Point>): (r: seq<real>)
    ensures |r| == |pts|
  {
    seq(|pts|, k requires 0 <= k < |pts| => SampleAt(library, s, pts[k]))
  }

  function Blocks(colors: TerrainMap.Biomes, heightMap: bool, library: FbmLibrary, s: Sampling,
                  pts: seq<Point>): (r: seq<Block>)
    ensures |r| == |pts|
  {
    seq(|pts|, k requires 0 <= k < |pts| => BlockAt(colors, heightMap, library, s, pts[k]))
  }

  /** Each block sits on its surface point at 30 times its height, which lies in
      [0, 30 * height] for samples in [-1, 1], and takes the colour of that height. */
  lemma BlockPlacement(colors: TerrainMap.Biomes, heightMap: bool, library: FbmLibrary,
                       s: Sampling, p: Point)
    requires -1.0 <= SampleAt(library, s, p) <= 1.0 && 0.0 <= s.height
    ensures var b := BlockAt(colors, heightMap, library, s, p);
      b.x == p.x && b.y == p.y && 0.0 <= b.z <= 30.0 * s.height &&
      b.shade == GetColor(colors, heightMap, b.z / 30.0)
  {
    var r := TerrainMap.RealElevation(SampleAt(library, s, p));
    assert 0.0 <= r <= 1.0;
    ScaleBelow(0.0, r, s.height);
    ScaleBelow(r, 1.0, s.height);
    ScaleBelow(r * s.height, s.height, 30.0);
  }

  /** `params`: the colour table, the display switch and the generation panel. */
  datatype Params = Params(colors: TerrainMap.Biomes, heightMap: bool, generation: Generation)

  /** The table the page starts with; the snow value is never compared against. */
  const DefaultColors := TerrainMap.Biomes(
    TerrainMap.Entry(0.6, "#9aa7ad"), TerrainMap.Entry(0.36, "#656565"),
    TerrainMap.Entry(0.29, "#586647"), TerrainMap.Entry(0.1, "#9ea667"),
    TerrainMap.Entry(0.04, "#efb28f"), TerrainMap.Entry(0.01, "#ffd68f"),
    TerrainMap.Entry(0.12, "#00a9ff"))

  function DefaultParams(seed: real): Params
  {
    Params(DefaultColors, false, Generation(seed, 0.8, 0.3, 0.5, 0.2, 0.3))
  }

  /** With the starting parameters: bands (-inf, 0.12], (0.12, 0.13], (0.13, 0.16],
      (0.16, 0.22], (0.22, 0.41], (0.41, 0.48], (0.48, inf); a 150 x 150 surface; and the
      library runs with persistance 0.4 and lacunarity 2. */
  lemma DefaultLayout(seed: real, h: real)
    ensures var b := GetColor(DefaultColors, false, h).band;
      && (b == MapgenNoise.Water <==> h <= 0.12)
      && (b == MapgenNoise.Shore <==> 0.12 < h <= 0.13)
      && (b == MapgenNoise.Beach <==> 0.13 < h <= 0.16)
      && (b == MapgenNoise.Shrub <==> 0.16 < h <= 0.22)
      && (b == MapgenNoise.Forest <==> 0.22 < h <= 0.41)
      && (b == MapgenNoise.Stone <==> 0.41 < h <= 0.48)
      && (b == MapgenNoise.Snow <==> 0.48 < h)
    ensures TerrainSize(DefaultParams(seed).generation.resolution) == 150.0
    ensures |Surface(DefaultParams(seed).generation.resolution)| == 22500
    ensures FbmConfigOf(DefaultParams(seed).generation) == FbmConfig(seed, 0.4, 2.0)
  {
    assert Ceil(150.0) == 150;
  }

  /** The page: its parameters, the shared sample logs and the terrain mesh, held as its
      instances and its scale. */
  class View {
    var params: Params
    const log: NoiseLog
    /** The instanced mesh, `undefined` before the first generation. */
    var terrain: Option<seq<Block>>
    var meshScale: real

    constructor(seed: real, log: NoiseLog, library: FbmLibrary)
      modifies log
      ensures params == DefaultParams(seed) && this.log == log
      ensures var g := params.generation;
        var s, pts := SamplingOf(g), Surface(g.resolution);
        && terrain == Some(Blocks(params.colors, params.heightMap, library, s, pts))
        && meshScale == SurfaceScale(g.resolution)
        && log.values == old(log.values) + Samples(library, s, pts)
        && log.powValues == old(log.powValues) + PowValues(Samples(library, s, pts))
    {
      params := DefaultParams(seed);
      this.log := log;
      terrain := None;
      meshScale := 0.0;
      new;
      CreateDataBlock(library);
    }

    /** `createDataBlock()`: lay out the surface, sample every point once in order through
        `getNoiseValue`, and place and colour one block per point. */
    method CreateDataBlock(library: FbmLibrary)
      modifies this, log
      ensures params == old(params)
      ensures var g := params.generation;
        var s, pts := SamplingOf(g), Surface(g.resolution);
        && terrain == Some(Blocks(params.colors, params.heightMap, library, s, pts))
        && meshScale == SurfaceScale(g.resolution)
        && log.values == old(log.values) + Samples(library, s, pts)
        && log.powValues == old(log.powValues) + PowValues(Samples(library, s, pts))
    {
      var g := params.generation;
      var config := FbmConfig(g.seed, g.fuzzyness * 2.0, g.detail * 4.0);
      var surface, scale := CreateSurface(g.resolution);
      var sampling := Sampling(config, scale * g.scale, g.height);
      SamplingStep(g, scale, sampling);
      var blocks := SampleSurface(log, library, sampling, params.colors, params.heightMap, surface);
      terrain := Some(blocks);
      meshScale := scale;
    }

    /** `generate()`: drop the old mesh and build a new one from the current parameters. */
    method Generate(library: FbmLibrary)
      modifies this, log
      ensures params == old(params)
      ensures var g := params.generation;
        var s, pts := SamplingOf(g), Surface(g.resolution);
        && terrain == Some(Blocks(params.colors, params.heightMap, library, s, pts))
        && meshScale == SurfaceScale(g.resolution)
        && log.values == old(log.values) + Samples(library, s, pts)
        && log.powValues == old(log.powValues) + PowValues(Samples(library, s, pts))
    {
      terrain := None;
      CreateDataBlock(library);
    }
  }

  /** The `surface.map` of `createDataBlock`: one `getNoiseValue` call per point, in order,
      and the block it places. */
  method SampleSurface(log: NoiseLog, library: FbmLibrary, s: Sampling, colors: TerrainMap.Biomes,
                       heightMap: bool, surface: seq<Point>) returns (blocks: seq<Block>)
    modifies log
    ensures blocks == Blocks(colors, heightMap, library, s, surface)
    ensures log.values == old(log.values) + Samples(library, s, surface)
    ensures log.powValues == old(log.powValues) + PowValues(Samples(library, s, surface))
  {
    blocks := [];
    for i := 0 to |surface|
      invariant blocks == Blocks(colors, heightMap, library, s, surface[..i])
      invariant log.values == old(log.values) + Samples(library, s, surface[..i])
      invariant log.powValues == old(log.powValues) + PowValues(Samples(library, s, surface[..i]))
    {
      var point := surface[i];
      var scaled := Scaled(point, s.factor);
      var noiseValue := log.GetNoiseValue(library, s.config, scaled);
      var realHeight := noiseValue * s.height;
      var color := GetColor(colors, heightMap, realHeight);
      blocks := blocks + [Block(point.x, point.y, realHeight * 30.0, color)];
      BlockStep(colors, heightMap, library, s, point, noiseValue, realHeight);
      PrefixStep(colors, heightMap, library, s, surface, i);
    }
    assert surface[..|surface|] == surface;
  }

  /** The block of one turn of the `surface.map` callback, in the loop's own terms. */
  lemma BlockStep(colors: TerrainMap.Biomes, heightMap: bool, library: FbmLibrary, s: Sampling,
                  point: Point, noiseValue: real, realHeight: real)
    requires noiseValue == TerrainMap.RealElevation(SampleAt(library, s, point))
    requires realHeight == noiseValue * s.height
    ensures BlockAt(colors, heightMap, library, s, point)
      == Block(point.x, point.y, realHeight * 30.0, GetColor(colors, heightMap, realHeight))
  {
    var h := TerrainMap.RealElevation(SampleAt(library, s, point)) * s.height;
    assert h == realHeight;
    assert BlockAt(colors, heightMap, library, s, point)
      == Block(point.x, point.y, h * 30.0, GetColor(colors, heightMap, h));
  }

  /** The squared remaps of a list of samples. */
  function PowValues(samples: seq<real>): (r: seq<real>)
    ensures |r| == |samples|
  {
    seq(|samples|, k requires 0 <= k < |samples| => TerrainMap.RealElevation(samples[k]))
  }

  /** One more point extends the samples, their remaps and the blocks by that point's own. */
  lemma PrefixStep(colors: TerrainMap.Biomes, heightMap: bool, library: FbmLibrary, s: Sampling,
                   surface: seq<Point>, i: nat)
    requires i < |surface|
    ensures Samples(library, s, surface[..i + 1])
      == Samples(library, s, surface[..i]) + [SampleAt(library, s, surface[i])]
    ensures PowValues(Samples(library, s, surface[..i + 1]))
      == PowValues(Samples(library, s, surface[..i]))
         + [TerrainMap.RealElevation(SampleAt(library, s, surface[i]))]
    ensures Blocks(colors, heightMap, library, s, surface[..i + 1])
      == Blocks(colors, heightMap, library, s, surface[..i])
         + [BlockAt(colors, heightMap, library, s, surface[i])]
  {
    var s1, s0 := Samples(library, s, surface[..i + 1]), Samples(library, s, surface[..i]);
    assert s1 == s0 + [SampleAt(library, s, surface[i])];
    assert PowValues(s1) == PowValues(s0) + [TerrainMap.RealElevation(s1[i])];
  }
}
