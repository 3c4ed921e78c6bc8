/** The colour bands and fractal noise of the map generator demo
    (pages/14-mapgen-webgl-demo/utils.ts). */
module MapgenNoise {
  import opened Common

  // ------------------------------------------------------------- getElevationColor

  /** The seven entries of the colour table, from the sea upwards. */
  datatype Band = Water | Shore | Beach | Shrub | Forest | Stone | Snow

  /** Position of a band in the upward order. */
  function Rank(b: Band): nat
  {
    match b
    case Water => 0
    case Shore => 1
    case Beach => 2
    case Shrub => 3
    case Forest => 4
    case Stone => 5
    case Snow => 6
  }

  /** How far above sea level a band begins; Water has no lower limit. */
  function LowerOffset(b: Band): real
    requires b != Water
  {
    match b
    case Shore => 0.0
    case Beach => 0.01
    case Shrub => 0.04
    case Forest => 0.1
    case Stone => 0.29
    case Snow => 0.36
  }

  /** The hex colour of each table entry. */
  function BandHex(b: Band): string
  {
    match b
    case Water => "#00a9ff"
    case Shore => "#ffd68f"
    case Beach => "#efb28f"
    case Shrub => "#9ea667"
    case Forest => "#586647"
    case Stone => "#656565"
    case Snow => "#9aa7ad"
  }

  /** The if/else chain of `getElevationColor`: each test is a strict `<` against sea level
      plus the next entry's offset. The table's own `water.value` and `snow.value` are never
      read. */
  function ElevationBand(elevation: real, seaLevel: real): (b: Band)
    ensures b == Water <==> elevation < seaLevel
    ensures b != Water ==> seaLevel + LowerOffset(b) <= elevation
    ensures b != Snow ==> elevation < seaLevel + LowerOffset(NextBand(b))
  {
    if elevation < seaLevel then Water
    else if elevation < seaLevel + 0.01 then Shore
    else if elevation < seaLevel + 0.04 then Beach
    else if elevation < seaLevel + 0.1 then Shrub
    else if elevation < seaLevel + 0.29 then Forest
    else if elevation < seaLevel + 0.36 then Stone
    else Snow
  }

  /** The returned colour: the band's colour with alpha 0.95 (the RGB conversion of the hex
      string is not modelled). */
  datatype Swatch = Swatch(hex: string, alpha: real)

  function ElevationColor(elevation: real, seaLevel: real): (c: Swatch)
    ensures c.alpha == 0.95
    ensures c.hex == "#00a9ff" <==> elevation < seaLevel
    ensures c.hex == "#ffd68f" <==> seaLevel <= elevation < seaLevel + 0.01
    ensures c.hex == "#efb28f" <==> seaLevel + 0.01 <= elevation < seaLevel + 0.04
    ensures c.hex == "#9ea667" <==> seaLevel + 0.04 <= elevation < seaLevel + 0.1
    ensures c.hex == "#586647" <==> seaLevel + 0.1 <= elevation < seaLevel + 0.29
    ensures c.hex == "#656565" <==> seaLevel + 0.29 <= elevation < seaLevel + 0.36
    ensures c.hex == "#9aa7ad" <==> seaLevel + 0.36 <= elevation
  {
    Swatch(BandHex(ElevationBand(elevation, seaLevel)), 0.95)
  }

  /** The band chosen is the one whose half-open interval
      [seaLevel + LowerOffset(b), seaLevel + LowerOffset(next)) holds the elevation: a value on
      a band's upper limit belongs to the next band up, and Water is everything below sea
      level. */
  lemma ElevationBandIntervals(elevation: real, seaLevel: real, b: Band)
    ensures b == Water ==> (ElevationBand(elevation, seaLevel) == b <==> elevation < seaLevel)
    ensures b != Water && b != Snow ==>
      var next := NextBand(b);
      (ElevationBand(elevation, seaLevel) == b <==>
        seaLevel + LowerOffset(b) <= elevation < seaLevel + LowerOffset(next))
    ensures b == Snow ==> (ElevationBand(elevation, seaLevel) == b <==> seaLevel + 0.36 <= elevation)
  {
  }

  /** The band directly above `b`. */
  function NextBand(b: Band): (n: Band)
    requires b != Snow
    ensures Rank(n) == Rank(b) + 1
  {
    match b
    case Water => Shore
    case Shore => Beach
    case Beach => Shrub
    case Shrub => Forest
    case Forest => Stone
    case Stone => Snow
  }

  /** An elevation exactly at sea level is shore, not water. */
  lemma SeaLevelIsShore(seaLevel: real)
    ensures ElevationBand(seaLevel, seaLevel) == Shore
  {
  }

  /** Higher ground never gets a lower band. */
  lemma ElevationBandMonotone(e1: real, e2: real, seaLevel: real)
    requires e1 <= e2
    ensures Rank(ElevationBand(e1, seaLevel)) <= Rank(ElevationBand(e2, seaLevel))
  {
  }

  /** The band depends only on the height above sea level. */
  lemma ElevationBandShift(elevation: real, seaLevel: real)
    ensures ElevationBand(elevation, seaLevel) == ElevationBand(elevation - seaLevel, 0.0)
  {
  }

  // -------------------------------------------------------------------------- fbm

  /** The options object; absent fields take the destructuring defaults. Octave counts and
      redistribution exponents are naturals. */
  datatype NoiseOptions = NoiseOptions(seed: real, scale: Option<real>, persistance: Option<real>,
                                       lacunarity: Option<real>, octaves: Option<nat>,
                                       redistribution: Option<nat>)

  /** The options with every default filled in. */
  datatype Settings = Settings(seed: real, scale: real, persistance: real, lacunarity: real,
                               octaves: nat, redistribution: nat)

  function OrElse<T>(o: Option<T>, d: T): T
  {
    if o.Some? then o.value else d
  }

  function Resolve(o: NoiseOptions): (s: Settings)
    ensures o.scale.None? ==> s.scale == 1.0
    ensures o.persistance.None? ==> s.persistance == 0.5
    ensures o.lacunarity.None? ==> s.lacunarity == 2.0
    ensures o.octaves.None? ==> s.octaves == 6
    ensures o.redistribution.None? ==> s.redistribution == 1
    ensures o.scale.Some? ==> s.scale == o.scale.value
    ensures o.persistance.Some? ==> s.persistance == o.persistance.value
    ensures o.lacunarity.Some? ==> s.lacunarity == o.lacunarity.value
    ensures o.octaves.Some? ==> s.octaves == o.octaves.value
    ensures o.redistribution.Some? ==> s.redistribution == o.redistribution.value
    ensures s.seed == o.seed
  {
    Settings(o.seed, OrElse(o.scale, 1.0), OrElse(o.persistance, 0.5), OrElse(o.lacunarity, 2.0),
             OrElse(o.octaves, 6), OrElse(o.redistribution, 1))
  }

  /** Octave `i`'s contribution: the noise sample at frequency `lacunarity^i`, remapped to
      [0,1] and weighted by `persistance^i`. */
  function Octave(noise: Noise, s: Settings, x: real, y: real, i: nat): real
  {
    (noise(s.seed, Scaled(x, s, i), Scaled(y, s, i)) * 0.5 + 0.5) * Pow(s.persistance, i)
  }

  /** A coordinate as octave `i` samples it: times `scale` and `lacunarity^i`. */
  function Scaled(v: real, s: Settings, i: nat): real
  {
    v * s.scale * Pow(s.lacunarity, i)
  }

  /** The sum of the first `k` octaves. */
  function OctaveSum(noise: Noise, s: Settings, x: real, y: real, k: nat): real
  {
    if k == 0 then 0.0 else OctaveSum(noise, s, x, y, k - 1) + Octave(noise, s, x, y, k - 1)
  }

  /** `1 + p + p^2 + ... + p^k`: the normaliser `max` after `k` octaves. */
  function AmplitudeSum(p: real, k: nat): real
  {
    if k == 0 then 1.0 else AmplitudeSum(p, k - 1) + Pow(p, k)
  }

  /** What `fbm` returns: the raw sum raised to `redistribution`, then divided by `max`. */
  function FbmValue(noise: Noise, x: real, y: real, o: NoiseOptions): real
    requires AmplitudeSum(Resolve(o).persistance, Resolve(o).octaves) != 0.0
  {
    var s := Resolve(o);
    Pow(OctaveSum(noise, s, x, y, s.octaves), s.redistribution) / AmplitudeSum(s.persistance, s.octaves)
  }

  method Fbm(x: real, y: real, options: NoiseOptions, noise: Noise) returns (value: real)
    requires AmplitudeSum(Resolve(options).persistance, Resolve(options).octaves) != 0.0
    ensures value == FbmValue(noise, x, y, options)
  {
    var s := Resolve(options);
    var result, max := SumOctaves(x, y, s, noise);
    var redistributed := Pow(result, s.redistribution);
    value := redistributed / max;
  }

  /** The octave loop of `fbm`: the raw sum and the normaliser `max`. */
  method SumOctaves(x: real, y: real, s: Settings, noise: Noise) returns (result: real, max: real)
    ensures result == OctaveSum(noise, s, x, y, s.octaves)
    ensures max == AmplitudeSum(s.persistance, s.octaves)
  {
    result := 0.0;
    var amplitude := 1.0;
    var frequency := 1.0;
    max := amplitude;
    for i := 0 to s.octaves
      invariant amplitude == Pow(s.persistance, i)
      invariant frequency == Pow(s.lacunarity, i)
      invariant max == AmplitudeSum(s.persistance, i)
      invariant result == OctaveSum(noise, s, x, y, i)
    {
      var nx := x * s.scale * frequency;
      var ny := y * s.scale * frequency;
      var noiseValue := noise(s.seed, nx, ny);
      OctaveStep(noise, s, x, y, i, nx, ny, noiseValue, amplitude);
      result := result + (noiseValue * 0.5 + 0.5) * amplitude;
      frequency := frequency * s.lacunarity;
      amplitude := amplitude * s.persistance;
      max := max + amplitude;
    }
  }

  /** One turn of the octave loop adds octave `i` to the sum. */
  lemma OctaveStep(noise: Noise, s: Settings, x: real, y: real, i: nat, nx: real, ny: real,
                   noiseValue: real, amplitude: real)
    requires nx == x * s.scale * Pow(s.lacunarity, i) && ny == y * s.scale * Pow(s.lacunarity, i)
    requires noiseValue == noise(s.seed, nx, ny) && amplitude == Pow(s.persistance, i)
    ensures OctaveSum(noise, s, x, y, i + 1) == OctaveSum(noise, s, x, y, i) + (noiseValue * 0.5 + 0.5) * amplitude
  {
    assert nx == Scaled(x, s, i) && ny == Scaled(y, s, i);
  }

  /** With a non-negative persistance the normaliser is at least 1. */
  lemma {:induction false} AmplitudeSumAtLeastOne(p: real, k: nat)
    requires 0.0 <= p
    ensures AmplitudeSum(p, k) >= 1.0
  {
    if k > 0 {
      AmplitudeSumAtLeastOne(p, k - 1);
      PowNonNegative(p, k);
    }
  }

  /** Each octave lies between 0 and its amplitude when the noise is in [-1,1]. */
  lemma OctaveBounds(noise: Noise, s: Settings, x: real, y: real, i: nat)
    requires NoiseInRange(noise) && 0.0 <= s.persistance
    ensures 0.0 <= Octave(noise, s, x, y, i) <= Pow(s.persistance, i)
  {
    PowNonNegative(s.persistance, i);
    var n := noise(s.seed, Scaled(x, s, i), Scaled(y, s, i));
    assert 0.0 <= n * 0.5 + 0.5 <= 1.0;
  }

  /** After `k` octaves the sum lies in [0, max - p^k]: it never reaches the amplitude added
      for the octave not yet taken. */
  lemma {:induction false} OctaveSumBounds(noise: Noise, s: Settings, x: real, y: real, k: nat)
    requires NoiseInRange(noise) && 0.0 <= s.persistance
    ensures 0.0 <= OctaveSum(noise, s, x, y, k) <= AmplitudeSum(s.persistance, k) - Pow(s.persistance, k)
  {
    if k > 0 {
      OctaveSumBounds(noise, s, x, y, k - 1);
      OctaveBounds(noise, s, x, y, k - 1);
    }
  }

  /** With redistribution 1, a non-negative persistance and noise in [-1,1], fbm lies in [0,1]. */
  lemma FbmUnitRange(noise: Noise, x: real, y: real, o: NoiseOptions)
    requires NoiseInRange(noise)
    requires 0.0 <= Resolve(o).persistance && Resolve(o).redistribution == 1
    ensures AmplitudeSum(Resolve(o).persistance, Resolve(o).octaves) >= 1.0
    ensures 0.0 <= FbmValue(noise, x, y, o) <= 1.0
  {
    var s := Resolve(o);
    AmplitudeSumAtLeastOne(s.persistance, s.octaves);
    OctaveSumBounds(noise, s, x, y, s.octaves);
    PowNonNegative(s.persistance, s.octaves);
    var sum := OctaveSum(noise, s, x, y, s.octaves);
    var max := AmplitudeSum(s.persistance, s.octaves);
    assert Pow(sum, 1) == sum;
    assert 0.0 <= sum <= max;
    DivUnit(sum, max);
  }

  lemma DivUnit(a: real, b: real)
    requires 0.0 <= a <= b && 1.0 <= b
    ensures 0.0 <= a / b <= 1.0
  {
  }

  /** With no octaves the sum is empty, so any positive redistribution gives 0. */
  lemma FbmNoOctaves(noise: Noise, x: real, y: real, o: NoiseOptions)
    requires Resolve(o).octaves == 0 && Resolve(o).redistribution > 0
    ensures AmplitudeSum(Resolve(o).persistance, 0) == 1.0
    ensures FbmValue(noise, x, y, o) == 0.0
  {
    var r := Resolve(o).redistribution;
    assert Pow(0.0, r) == Pow(0.0, r - 1) * 0.0;
  }
}
