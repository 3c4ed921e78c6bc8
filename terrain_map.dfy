/** The canvas terrain map (pages/terrain-map-generator/main.ts): seven colour bands above a
    configurable sea level, the squared remap of fractal noise, and the grid the demo paints. */
module TerrainMap {
  import opened Common
  import MapgenNoise

  // ------------------------------------------------------------------- assignColor

  /** A biome table entry: an offset above sea level (the sea level itself for water) and a
      colour. */
  datatype Entry = Entry(value: real, color: string)

  /** `params.biomes`. */
  datatype Biomes = Biomes(snow: Entry, stone: Entry, forest: Entry, shrub: Entry, beach: Entry,
                           shore: Entry, water: Entry)

  type Band = MapgenNoise.Band

  function EntryOf(biomes: Biomes, b: Band): Entry
  {
    match b
    case Water => biomes.water
    case Shore => biomes.shore
    case Beach => biomes.beach
    case Shrub => biomes.shrub
    case Forest => biomes.forest
    case Stone => biomes.stone
    case Snow => biomes.snow
  }

  /** The band `assignColor` picks: `<=` tests against `water.value` (the sea level) and sea
      level plus the shore, beach, shrub, forest and stone offsets, else snow. */
  function BandOf(biomes: Biomes, elevation: real): (b: Band)
    ensures b == MapgenNoise.Water <==> elevation <= biomes.water.value
    ensures b != MapgenNoise.Snow ==> elevation <= UpperLimit(biomes, b)
  {
    var seaLevel := biomes.water.value;
    if elevation <= seaLevel then MapgenNoise.Water
    else if elevation <= seaLevel + biomes.shore.value then MapgenNoise.Shore
    else if elevation <= seaLevel + biomes.beach.value then MapgenNoise.Beach
    else if elevation <= seaLevel + biomes.shrub.value then MapgenNoise.Shrub
    else if elevation <= seaLevel + biomes.forest.value then MapgenNoise.Forest
    else if elevation <= seaLevel + biomes.stone.value then MapgenNoise.Stone
    else MapgenNoise.Snow
  }

  /** `assignColor`: the colour of the band the elevation falls in. */
  function AssignColor(biomes: Biomes, elevation: real): (color: string)
    ensures exists b :: color == EntryOf(biomes, b).color
  {
    EntryOf(biomes, BandOf(biomes, elevation)).color
  }

  /** The upper limit of every band but snow, sea level included. */
  function UpperLimit(biomes: Biomes, b: Band): real
    requires b != MapgenNoise.Snow
  {
    if b == MapgenNoise.Water then biomes.water.value
    else biomes.water.value + EntryOf(biomes, b).value
  }

  /** The band picked is the first one, in upward order, whose upper limit the elevation does
      not exceed: limits are inclusive, so the sea level itself is water and sea level plus
      the shore offset is still shore. */
  lemma BandIsFirstFit(biomes: Biomes, elevation: real)
    ensures var b := BandOf(biomes, elevation);
      && (b != MapgenNoise.Snow ==> elevation <= UpperLimit(biomes, b))
      && (forall c: Band :: c != MapgenNoise.Snow && MapgenNoise.Rank(c) < MapgenNoise.Rank(b) ==>
            elevation > UpperLimit(biomes, c))
    ensures BandOf(biomes, biomes.water.value) == MapgenNoise.Water
    ensures biomes.shore.value > 0.0 ==>
      BandOf(biomes, biomes.water.value + biomes.shore.value) == MapgenNoise.Shore
  {
  }

  /** Higher ground never gets a lower band, whatever the offsets: the set of limits an
      elevation stays within only shrinks as it rises. */
  lemma BandMonotone(biomes: Biomes, e1: real, e2: real)
    requires e1 <= e2
    ensures MapgenNoise.Rank(BandOf(biomes, e1)) <= MapgenNoise.Rank(BandOf(biomes, e2))
  {
  }

  /** The table the page starts with. */
  const DefaultBiomes := Biomes(Entry(0.6, "#9aa7ad"), Entry(0.36, "#656565"), Entry(0.29, "#586647"),
                                Entry(0.1, "#9ea667"), Entry(0.04, "#efb28f"), Entry(0.01, "#ffd68f"),
                                Entry(0.42, "#00a9ff"))

  /** With the default table the bands are the intervals (-inf, 0.42], (0.42, 0.43],
      (0.43, 0.46], (0.46, 0.52], (0.52, 0.71], (0.71, 0.78] and (0.78, inf). */
  lemma DefaultBands(elevation: real)
    ensures BandOf(DefaultBiomes, elevation) == MapgenNoise.Water <==> elevation <= 0.42
    ensures BandOf(DefaultBiomes, elevation) == MapgenNoise.Shore <==> 0.42 < elevation <= 0.43
    ensures BandOf(DefaultBiomes, elevation) == MapgenNoise.Beach <==> 0.43 < elevation <= 0.46
    ensures BandOf(DefaultBiomes, elevation) == MapgenNoise.Shrub <==> 0.46 < elevation <= 0.52
    ensures BandOf(DefaultBiomes, elevation) == MapgenNoise.Forest <==> 0.52 < elevation <= 0.71
    ensures BandOf(DefaultBiomes, elevation) == MapgenNoise.Stone <==> 0.71 < elevation <= 0.78
    ensures BandOf(DefaultBiomes, elevation) == MapgenNoise.Snow <==> 0.78 < elevation
  {
  }

  // -------------------------------------------------------------------- the elevation

  /** `Math.pow(mapLinear(e, -1, 1, 0, 1), 2)`. */
  function RealElevation(e: real): (r: real)
    ensures -1.0 <= e <= 1.0 ==> 0.0 <= r <= 1.0
  {
    var t := (e - -1.0) * (1.0 - 0.0) / (1.0 - -1.0) + 0.0;
    PowUnitIntervalIf(t);
    Pow(t, 2)
  }

  lemma PowUnitIntervalIf(t: real)
    ensures 0.0 <= t <= 1.0 ==> 0.0 <= Pow(t, 2) <= 1.0
  {
    if 0.0 <= t <= 1.0 {
      PowUnitInterval(t, 2);
    }
  }

  /** The remap is the square of the midpoint map, and it is monotone on [-1, 1]. */
  lemma RealElevationShape(e1: real, e2: real)
    requires -1.0 <= e1 <= e2 <= 1.0
    ensures RealElevation(e1) == ((e1 + 1.0) / 2.0) * ((e1 + 1.0) / 2.0)
    ensures RealElevation(e1) <= RealElevation(e2)
  {
    var a, b := (e1 + 1.0) / 2.0, (e2 + 1.0) / 2.0;
    assert (e1 - -1.0) * (1.0 - 0.0) / (1.0 - -1.0) + 0.0 == a;
    assert (e2 - -1.0) * (1.0 - 0.0) / (1.0 - -1.0) + 0.0 == b;
    assert RealElevation(e1) == Pow(a, 2) && RealElevation(e2) == Pow(b, 2);
    Square(a);
    PowMonotone(a, b, 2);
  }

  lemma Square(a: real)
    ensures Pow(a, 2) == a * a
  {
    assert Pow(a, 1) == a;
  }

  // ------------------------------------------------------------------ the params object

  /** The fractal noise of terrain-map-generator/utils.ts, which is not part of this model:
      a function of (x, y, options). */
  type Fbm = (real, real, MapgenNoise.NoiseOptions) -> real

  /** The `params` object, shared between the page's panel handlers and the demo. */
  class Params {
    var cellSize: nat
    var seaLevel: real
    var elevation: MapgenNoise.NoiseOptions
    var biomes: Biomes

    constructor(cellSize: nat, seaLevel: real, elevation: MapgenNoise.NoiseOptions, biomes: Biomes)
      ensures this.cellSize == cellSize && this.seaLevel == seaLevel
      ensures this.elevation == elevation && this.biomes == biomes
    {
      this.cellSize := cellSize;
      this.seaLevel := seaLevel;
      this.elevation := elevation;
      this.biomes := biomes;
    }

    /** The sea-level slider's change handler: only on the final event of a drag does it move
        the water limit, to 0.6 times the slider value. The panel slider is all the handler
        touches apart from that. */
    method OnSeaLevelChange(value: real, last: bool)
      modifies this
      ensures cellSize == old(cellSize) && seaLevel == old(seaLevel) && elevation == old(elevation)
      ensures last ==> biomes == old(biomes).(water := old(biomes).water.(value := value * 0.6))
      ensures !last ==> biomes == old(biomes)
    {
      if last {
        biomes := biomes.(water := biomes.water.(value := value * 0.6));
      }
    }
  }

  /** After a final sea-level event, the slider value v sets the water limit to 0.6 v, so an
      elevation of exactly 0.6 v is painted as water. */
  lemma SeaLevelHandlerEffect(biomes: Biomes, value: real)
    ensures BandOf(biomes.(water := biomes.water.(value := value * 0.6)), value * 0.6) == MapgenNoise.Water
  {
  }

  // ------------------------------------------------------------------ the painted grid

  datatype Cell = Cell(x: nat, y: nat, side: nat, color: string)

  function Normalised(i: nat, n: nat): real
    requires n > 0
  {
    (i as real) / (n as real) - 0.5
  }

  /** The elevation `render` pushes for cell (row, col) of an n x n grid. */
  function ElevationGrid(options: MapgenNoise.NoiseOptions, fbm: Fbm, n: nat): (nat, nat) -> real
  {
    (row: nat, col: nat) =>
      if n == 0 then 0.0 else RealElevation(fbm(Normalised(col, n), Normalised(row, n), options))
  }

  /** The cell `render` paints at (row, col), coloured by the elevation it pushed. */
  function CellGrid(options: MapgenNoise.NoiseOptions, biomes: Biomes, fbm: Fbm, n: nat, side: nat): (nat, nat) -> Cell
  {
    (row: nat, col: nat) =>
      Cell(col * side, row * side, side, AssignColor(biomes, ElevationGrid(options, fbm, n)(row, col)))
  }

  /** The elevations of an n x n render: exactly n * n values, row by row, each in [0, 1]
      when the noise is. */
  lemma ElevationsShape(options: MapgenNoise.NoiseOptions, fbm: Fbm, n: nat, row: nat, col: nat)
    requires row < n && col < n
    requires -1.0 <= fbm(Normalised(col, n), Normalised(row, n), options) <= 1.0
    ensures |RowMajor(n, n, ElevationGrid(options, fbm, n))| == n * n && row * n + col < n * n
    ensures RowMajor(n, n, ElevationGrid(options, fbm, n))[row * n + col]
      == RealElevation(fbm(Normalised(col, n), Normalised(row, n), options))
    ensures 0.0 <= RowMajor(n, n, ElevationGrid(options, fbm, n))[row * n + col] <= 1.0
  {
    RowMajorAt(n, n, ElevationGrid(options, fbm, n), row, col);
  }

  class Demo {
    const size: nat
    var cellSize: nat
    var cols: nat
    var rows: nat
    var params: Params
    const hasContext: bool
    /** The cells painted since the canvas was last cleared, in order. */
    var canvas: seq<Cell>

    ghost predicate Valid()
      reads this, params
    {
      cellSize > 0 && cellSize == params.cellSize && cols == size / cellSize && rows == cols
    }

    constructor(size: nat, params: Params, hasContext: bool, fbm: Fbm)
      requires params.cellSize > 0
      ensures Valid() && this.size == size && this.params == params
      ensures canvas == (if hasContext then RowMajor(cols, cols, CellGrid(params.elevation, params.biomes, fbm, cols, params.cellSize)) else [])
    {
      this.size := size;
      this.params := params;
      this.hasContext := hasContext;
      this.cellSize := params.cellSize;
      this.cols := size / params.cellSize;
      this.rows := size / params.cellSize;
      this.canvas := [];
      new;
      var _ := Render(fbm);
    }

    /** Paint every cell row by row, collecting the elevations in painting order; without a
        context, do nothing. */
    method Render(fbm: Fbm) returns (elevations: seq<real>)
      requires Valid()
      modifies this`canvas
      ensures hasContext ==> elevations == RowMajor(rows, cols, ElevationGrid(params.elevation, fbm, cols))
      ensures !hasContext ==> elevations == []
      ensures canvas == old(canvas) +
        (if hasContext then RowMajor(rows, cols, CellGrid(params.elevation, params.biomes, fbm, cols, cellSize)) else [])
    {
      elevations := [];
      if !hasContext {
        return;
      }
      ghost var e := ElevationGrid(params.elevation, fbm, cols);
      ghost var f := CellGrid(params.elevation, params.biomes, fbm, cols, cellSize);
      ghost var start := canvas;
      for row := 0 to rows
        invariant elevations == RowMajor(row, cols, e)
        invariant canvas == start + RowMajor(row, cols, f)
      {
        ghost var before, pushedBefore := canvas, elevations;
        var rowElevations := PaintRow(row, fbm);
        elevations := elevations + rowElevations;
        AppendRow([], pushedBefore, elevations, row, cols, e);
        AppendRow(start, before, canvas, row, cols, f);
      }
    }

    /** The inner loop of `render` for one row. */
    method PaintRow(row: nat, fbm: Fbm) returns (pushed: seq<real>)
      requires Valid() && hasContext && row < rows
      modifies this`canvas
      ensures pushed == RowOf(row, cols, ElevationGrid(params.elevation, fbm, cols))
      ensures canvas == old(canvas) + RowOf(row, cols, CellGrid(params.elevation, params.biomes, fbm, cols, cellSize))
    {
      ghost var e := ElevationGrid(params.elevation, fbm, cols);
      ghost var f := CellGrid(params.elevation, params.biomes, fbm, cols, cellSize);
      ghost var start := canvas;
      pushed := [];
      for col := 0 to cols
        invariant pushed == RowOf(row, cols, e)[..col]
        invariant canvas == start + RowOf(row, cols, f)[..col]
      {
        var elevation := fbm(Normalised(col, cols), Normalised(row, rows), params.elevation);
        var realElevation := RealElevation(elevation);
        pushed := pushed + [realElevation];
        var color := AssignColor(params.biomes, realElevation);
        canvas := canvas + [Cell(col * cellSize, row * cellSize, cellSize, color)];
        assert RowOf(row, cols, e)[..col + 1] == RowOf(row, cols, e)[..col] + [e(row, col)];
        assert RowOf(row, cols, f)[..col + 1] == RowOf(row, cols, f)[..col] + [f(row, col)];
      }
      assert RowOf(row, cols, e)[..cols] == RowOf(row, cols, e);
      assert RowOf(row, cols, f)[..cols] == RowOf(row, cols, f);
    }

    /** Clear the canvas, adopt the (shared) parameters and their cell size, and paint again. */
    method Rerender(params: Params, fbm: Fbm)
      requires params.cellSize > 0
      modifies this
      ensures Valid() && this.params == params
      ensures canvas == (if hasContext
        then RowMajor(cols, cols, CellGrid(params.elevation, params.biomes, fbm, cols, params.cellSize))
        else old(canvas))
      ensures cols == size / params.cellSize
    {
      if hasContext {
        canvas := [];
      }
      this.params := params;
      cellSize := params.cellSize;
      cols := size / cellSize;
      rows := size / cellSize;
      var _ := Render(fbm);
    }
  }
}
