/** The canvas noise map (pages/noise-map/main.ts): the elevation x moisture biome table and
    the grid of cells the demo paints. */
module NoiseMap {
  import opened Common
  import opened NoiseFields

  // ------------------------------------------------------------------- assignColor

  /** The fifteen colour constants of `assignColor`. */
  datatype Biome =
    | Ocean | Beach
    | TemperateDesert | Shrubland | Taiga
    | TemperateDeciduousForest | TemperateRainForest
    | SubtropicalDesert | Grassland | TropicalSeasonalForest | TropicalRainForest
    | Scorched | Bare | Tundra | Snow

  function BiomeHex(b: Biome): string
  {
    match b
    case Ocean => "#41467b"
    case Beach => "#979087"
    case TemperateDesert => "#c9d29b"
    case Shrubland => "#889978"
    case Taiga => "#99ab77"
    case TemperateDeciduousForest => "#68945a"
    case TemperateRainForest => "#448755"
    case SubtropicalDesert => "#d1b988"
    case Grassland => "#88aa56"
    case TropicalSeasonalForest => "#559a45"
    case TropicalRainForest => "#327754"
    case Scorched => "#565656"
    case Bare => "#888888"
    case Tundra => "#bbbbab"
    case Snow => "#dddee4"
  }

  /** `assignColor(e, m)`: water and beach by elevation alone, then one moisture scale per
      elevation zone. */
  function AssignColor(e: real, m: real): (b: Biome)
    ensures b in ZoneBiomes(ZoneOf(e))
  {
    if e < 0.1 then Ocean
    else if e < 0.12 then Beach
    else if e > 0.8 then
      (if m < 0.1 then Scorched else if m < 0.2 then Bare else if m < 0.5 then Tundra else Snow)
    else if e > 0.6 then
      (if m < 0.33 then TemperateDesert else if m < 0.66 then Shrubland else Taiga)
    else if e > 0.3 then
      (if m < 0.16 then TemperateDesert else if m < 0.5 then Grassland
       else if m < 0.83 then TemperateDeciduousForest else TemperateRainForest)
    else
      (if m < 0.16 then SubtropicalDesert else if m < 0.33 then Grassland
       else if m < 0.66 then TropicalSeasonalForest else TropicalRainForest)
  }

  /** The elevation zones of the table. */
  datatype Zone = Sea | Shore | High | Upland | Midland | Lowland

  /** The zone an elevation falls in: each upper limit of a land zone is inclusive, because
      the table tests `e > limit`. */
  function ZoneOf(e: real): Zone
  {
    if e < 0.1 then Sea
    else if e < 0.12 then Shore
    else if 0.8 < e then High
    else if 0.6 < e then Upland
    else if 0.3 < e then Midland
    else Lowland
  }

  /** The biomes that may appear in each zone. */
  function ZoneBiomes(z: Zone): set<Biome>
  {
    match z
    case Sea => {Ocean}
    case Shore => {Beach}
    case High => {Scorched, Bare, Tundra, Snow}
    case Upland => {TemperateDesert, Shrubland, Taiga}
    case Midland => {TemperateDesert, Grassland, TemperateDeciduousForest, TemperateRainForest}
    case Lowland => {SubtropicalDesert, Grassland, TropicalSeasonalForest, TropicalRainForest}
  }

  /** Every (e, m) gets one of the biomes of e's zone; in particular e = 0.8 is upland, and
      sea and shore ignore moisture. */
  lemma AssignColorInZone(e: real, m: real)
    ensures AssignColor(e, m) in ZoneBiomes(ZoneOf(e))
    ensures e < 0.1 ==> AssignColor(e, m) == Ocean
    ensures 0.1 <= e < 0.12 ==> AssignColor(e, m) == Beach
    ensures ZoneOf(0.8) == Upland
  {
  }

  /** How wet a biome is on its zone's moisture scale, 0 for the driest entry. */
  function Wetness(b: Biome): nat
  {
    match b
    case Ocean => 0
    case Beach => 0
    case Scorched => 0
    case Bare => 1
    case Tundra => 2
    case Snow => 3
    case TemperateDesert => 0
    case Shrubland => 1
    case Taiga => 2
    case Grassland => 1
    case TemperateDeciduousForest => 2
    case TemperateRainForest => 3
    case SubtropicalDesert => 0
    case TropicalSeasonalForest => 2
    case TropicalRainForest => 3
  }

  /** At a fixed elevation, more moisture never gives a drier biome. */
  lemma AssignColorMoistureMonotone(e: real, m1: real, m2: real)
    requires m1 <= m2
    ensures Wetness(AssignColor(e, m1)) <= Wetness(AssignColor(e, m2))
  {
  }

  /** The fifteen constants are distinct colours, so the painted colour determines the biome. */
  lemma BiomeHexInjective(a: Biome, b: Biome)
    ensures BiomeHex(a) == BiomeHex(b) <==> a == b
  {
    if a != b {
      assert BiomeHex(a)[1..] != BiomeHex(b)[1..] || BiomeHex(a) != BiomeHex(b);
    }
  }

  // ----------------------------------------------------------------- the painted grid

  datatype Params = Params(cellSize: nat, elevation: NoiseOptions, moisture: NoiseOptions,
                           elevationPow: nat)

  /** Both fields divide by their weight sums. */
  predicate Drawable(p: Params)
  {
    p.cellSize > 0 && WeightTotal(p.elevation) != 0.0 && WeightTotal(p.moisture) != 0.0
  }

  /** One painted cell: its top-left corner, side and fill. */
  datatype Cell = Cell(x: nat, y: nat, side: nat, fill: Biome)

  /** `col / cols - 0.5`. */
  function Normalised(i: nat, n: nat): real
    requires n > 0
  {
    (i as real) / (n as real) - 0.5
  }

  /** The grid cell at (row, col) as `render` paints it. */
  function CellAt(p: Params, n: nat, noise: Noise, row: nat, col: nat): Cell
    requires Drawable(p) && n > 0
  {
    var nx, ny := Normalised(col, n), Normalised(row, n);
    var elevation := GenerateElevation(nx, ny, p.elevation, p.elevationPow, noise);
    var moisture := GenerateMoisture(nx, ny, p.moisture, noise);
    Cell(col * p.cellSize, row * p.cellSize, p.cellSize, AssignColor(elevation, moisture))
  }

  /** CellAt as a grid function. An empty grid has no cells, so its placeholder is never
      listed. */
  function CellGrid(p: Params, n: nat, noise: Noise): (nat, nat) -> Cell
    requires Drawable(p)
  {
    (row: nat, col: nat) => if n == 0 then Cell(0, 0, 0, Ocean) else CellAt(p, n, noise, row, col)
  }

  /** One turn of the inner loop of `render` paints CellGrid's cell. */
  lemma CellGridAt(p: Params, n: nat, noise: Noise, row: nat, col: nat, nx: real, ny: real,
                   elevation: real, moisture: real)
    requires Drawable(p) && n > 0
    requires nx == Normalised(col, n) && ny == Normalised(row, n)
    requires elevation == GenerateElevation(nx, ny, p.elevation, p.elevationPow, noise)
    requires moisture == GenerateMoisture(nx, ny, p.moisture, noise)
    ensures CellGrid(p, n, noise)(row, col)
      == Cell(col * p.cellSize, row * p.cellSize, p.cellSize, AssignColor(elevation, moisture))
  {
  }

  /** The cells of an n x n grid in painting order. */
  function Picture(p: Params, n: nat, noise: Noise): seq<Cell>
    requires Drawable(p)
  {
    RowMajor(n, n, CellGrid(p, n, noise))
  }

  /** The normalised coordinate of a column lies in [-0.5, 0.5). */
  lemma NormalisedRange(i: nat, n: nat)
    requires i < n
    ensures -0.5 <= Normalised(i, n) < 0.5
  {
    assert (i as real) / (n as real) < 1.0;
  }

  /** Cell (row, col) of the picture is painted at (col * cellSize, row * cellSize) from
      normalised coordinates in [-0.5, 0.5). */
  lemma PictureCell(p: Params, n: nat, noise: Noise, row: nat, col: nat)
    requires Drawable(p) && row < n && col < n
    ensures |Picture(p, n, noise)| == n * n && row * n + col < n * n
    ensures Picture(p, n, noise)[row * n + col] == CellAt(p, n, noise, row, col)
    ensures CellAt(p, n, noise, row, col).x == col * p.cellSize
    ensures CellAt(p, n, noise, row, col).y == row * p.cellSize
    ensures -0.5 <= Normalised(col, n) < 0.5 && -0.5 <= Normalised(row, n) < 0.5
  {
    RowMajorAt(n, n, CellGrid(p, n, noise), row, col);
    NormalisedRange(col, n);
    NormalisedRange(row, n);
  }

  class Demo {
    /** The canvas width read once by the constructor. */
    const size: nat
    var cellSize: nat
    var cols: nat
    var rows: nat
    var params: Params
    /** Whether `getContext('2d')` returned a context. */
    const hasContext: bool
    /** The cells painted on the canvas since it was last cleared, in order. */
    var canvas: seq<Cell>

    /** `cols = rows = floor(size / cellSize)` with the current cell size. */
    ghost predicate Valid()
      reads this`cellSize, this`cols, this`rows, this`params
    {
      Drawable(params) && cellSize == params.cellSize && cols == size / cellSize && rows == cols
    }

    constructor(size: nat, params: Params, hasContext: bool, noise: Noise)
      requires Drawable(params)
      ensures Valid() && this.size == size && this.params == params
      ensures canvas == (if hasContext then Picture(params, size / params.cellSize, noise) else [])
    {
      this.size := size;
      this.params := params;
      this.hasContext := hasContext;
      this.cellSize := params.cellSize;
      this.cols := size / params.cellSize;
      this.rows := size / params.cellSize;
      this.canvas := [];
      new;
      Render(noise);
    }

    /** Paint every cell, rows outer and columns inner; without a context, paint nothing. */
    method Render(noise: Noise)
      requires Valid()
      modifies this`canvas
      ensures canvas == old(canvas) + (if hasContext then Picture(params, cols, noise) else [])
    {
      if !hasContext {
        return;
      }
      ghost var f := CellGrid(params, cols, noise);
      ghost var start := canvas;
      for row := 0 to rows
        invariant canvas == start + RowMajor(row, cols, f)
      {
        ghost var before := canvas;
        PaintRow(row, noise);
        AppendRow(start, before, canvas, row, cols, f);
      }
    }

    /** The inner loop of `render`: paint the cells of one row, left to right. */
    method PaintRow(row: nat, noise: Noise)
      requires Valid() && hasContext && row < rows
      modifies this`canvas
      ensures canvas == old(canvas) + RowOf(row, cols, CellGrid(params, cols, noise))
    {
      ghost var f := CellGrid(params, cols, noise);
      ghost var start := canvas;
      for col := 0 to cols
        invariant canvas == start + RowOf(row, cols, f)[..col]
      {
        var nx := Normalised(col, cols);
        var ny := Normalised(row, rows);
        var elevation := GenerateElevation(nx, ny, params.elevation, params.elevationPow, noise);
        var moisture := GenerateMoisture(nx, ny, params.moisture, noise);
        var color := AssignColor(elevation, moisture);
        CellGridAt(params, cols, noise, row, col, nx, ny, elevation, moisture);
        canvas := canvas + [Cell(col * cellSize, row * cellSize, cellSize, color)];
        assert RowOf(row, cols, f)[..col + 1] == RowOf(row, cols, f)[..col] + [f(row, col)];
      }
      assert RowOf(row, cols, f)[..cols] == RowOf(row, cols, f);
    }

    /** Clear the canvas, adopt the new parameters and cell size, and paint again. */
    method Rerender(params: Params, noise: Noise)
      requires Drawable(params)
      modifies this
      ensures Valid() && this.params == params
      ensures canvas == (if hasContext then Picture(params, size / params.cellSize, noise) else old(canvas))
    {
      if hasContext {
        canvas := [];
      }
      this.params := params;
      cellSize := params.cellSize;
      cols := size / cellSize;
      rows := size / cellSize;
      Render(noise);
    }
  }
}
