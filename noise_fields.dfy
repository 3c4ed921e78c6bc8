/** The six-octave weighted noise fields of the noise map (pages/noise-map/utils.ts). */
module NoiseFields {
  import opened Common

  /** The per-field options: a seed and the weights of the six octaves. */
  datatype NoiseOptions = NoiseOptions(seed: real, e1: real, e2: real, e3: real, e4: real, e5: real, e6: real)

  /** `noiseE`: one noise sample remapped from [-1,1] to [0,1]. */
  function NoiseE(noise: Noise, x: real, y: real, seed: real): (v: real)
    ensures NoiseInRange(noise) ==> 0.0 <= v <= 1.0
  {
    noise(seed, x, y) * 0.5 + 0.5
  }

  function WeightTotal(o: NoiseOptions): real
  {
    o.e1 + o.e2 + o.e3 + o.e4 + o.e5 + o.e6
  }

  /** `generateMoisture`: the six samples at frequencies 1, 2, 4, 8, 16, 32, all from the same
      seed, weighted by e1..e6 and divided by the sum of the weights. */
  function GenerateMoisture(x: real, y: real, o: NoiseOptions, noise: Noise): (m: real)
    requires WeightTotal(o) != 0.0
    ensures NoiseInRange(noise) && NonNegativeWeights(o) && WeightTotal(o) > 0.0 ==> 0.0 <= m <= 1.0
  {
    SixTermAverage(o, NoiseE(noise, 1.0 * x, 1.0 * y, o.seed), NoiseE(noise, 2.0 * x, 2.0 * y, o.seed),
                   NoiseE(noise, 4.0 * x, 4.0 * y, o.seed), NoiseE(noise, 8.0 * x, 8.0 * y, o.seed),
                   NoiseE(noise, 16.0 * x, 16.0 * y, o.seed), NoiseE(noise, 32.0 * x, 32.0 * y, o.seed));
    (o.e1 * NoiseE(noise, 1.0 * x, 1.0 * y, o.seed)
     + o.e2 * NoiseE(noise, 2.0 * x, 2.0 * y, o.seed)
     + o.e3 * NoiseE(noise, 4.0 * x, 4.0 * y, o.seed)
     + o.e4 * NoiseE(noise, 8.0 * x, 8.0 * y, o.seed)
     + o.e5 * NoiseE(noise, 16.0 * x, 16.0 * y, o.seed)
     + o.e6 * NoiseE(noise, 32.0 * x, 32.0 * y, o.seed)) / WeightTotal(o)
  }

  /** `generateElevation`: the same weighted average, raised to `pow`. */
  function GenerateElevation(x: real, y: real, o: NoiseOptions, pow: nat, noise: Noise): (e: real)
    requires WeightTotal(o) != 0.0
    ensures e == Pow(GenerateMoisture(x, y, o, noise), pow)
  {
    Pow((o.e1 * NoiseE(noise, 1.0 * x, 1.0 * y, o.seed)
         + o.e2 * NoiseE(noise, 2.0 * x, 2.0 * y, o.seed)
         + o.e3 * NoiseE(noise, 4.0 * x, 4.0 * y, o.seed)
         + o.e4 * NoiseE(noise, 8.0 * x, 8.0 * y, o.seed)
         + o.e5 * NoiseE(noise, 16.0 * x, 16.0 * y, o.seed)
         + o.e6 * NoiseE(noise, 32.0 * x, 32.0 * y, o.seed)) / WeightTotal(o), pow)
  }

  predicate NonNegativeWeights(o: NoiseOptions)
  {
    0.0 <= o.e1 && 0.0 <= o.e2 && 0.0 <= o.e3 && 0.0 <= o.e4 && 0.0 <= o.e5 && 0.0 <= o.e6
  }

  /** Six samples in [0, 1] averaged with non-negative weights of positive sum stay in [0, 1]. */
  lemma SixTermAverage(o: NoiseOptions, v1: real, v2: real, v3: real, v4: real, v5: real, v6: real)
    requires WeightTotal(o) != 0.0
    ensures NonNegativeWeights(o) && WeightTotal(o) > 0.0 &&
            0.0 <= v1 <= 1.0 && 0.0 <= v2 <= 1.0 && 0.0 <= v3 <= 1.0 &&
            0.0 <= v4 <= 1.0 && 0.0 <= v5 <= 1.0 && 0.0 <= v6 <= 1.0 ==>
      0.0 <= (o.e1 * v1 + o.e2 * v2 + o.e3 * v3 + o.e4 * v4 + o.e5 * v5 + o.e6 * v6) / WeightTotal(o) <= 1.0
  {
    if NonNegativeWeights(o) && WeightTotal(o) > 0.0 &&
       0.0 <= v1 <= 1.0 && 0.0 <= v2 <= 1.0 && 0.0 <= v3 <= 1.0 &&
       0.0 <= v4 <= 1.0 && 0.0 <= v5 <= 1.0 && 0.0 <= v6 <= 1.0 {
      HeadBound(o.e6, v6, 0.0, 0.0);
      HeadBound(o.e5, v5, o.e6 * v6 + 0.0, o.e6 + 0.0);
      HeadBound(o.e4, v4, o.e5 * v5 + (o.e6 * v6 + 0.0), o.e5 + (o.e6 + 0.0));
      HeadBound(o.e3, v3, o.e4 * v4 + (o.e5 * v5 + (o.e6 * v6 + 0.0)), o.e4 + (o.e5 + (o.e6 + 0.0)));
      HeadBound(o.e2, v2, o.e3 * v3 + (o.e4 * v4 + (o.e5 * v5 + (o.e6 * v6 + 0.0))),
                o.e3 + (o.e4 + (o.e5 + (o.e6 + 0.0))));
      HeadBound(o.e1, v1, o.e2 * v2 + (o.e3 * v3 + (o.e4 * v4 + (o.e5 * v5 + (o.e6 * v6 + 0.0)))),
                o.e2 + (o.e3 + (o.e4 + (o.e5 + (o.e6 + 0.0)))));
      QuotientUnit(o.e1 * v1 + o.e2 * v2 + o.e3 * v3 + o.e4 * v4 + o.e5 * v5 + o.e6 * v6, WeightTotal(o));
    }
  }

  // ------------------------------------------------------ the weighted average they share

  function Sum(ws: seq<real>): real
  {
    if ws == [] then 0.0 else ws[0] + Sum(ws[1..])
  }

  function Dot(ws: seq<real>, vs: seq<real>): real
    requires |ws| == |vs|
  {
    if ws == [] then 0.0 else ws[0] * vs[0] + Dot(ws[1..], vs[1..])
  }

  /** The weighted average of `vs` with weights `ws`. */
  function WeightedAverage(ws: seq<real>, vs: seq<real>): real
    requires |ws| == |vs| && Sum(ws) != 0.0
  {
    Dot(ws, vs) / Sum(ws)
  }

  function Weights(o: NoiseOptions): (ws: seq<real>)
    ensures |ws| == 6
  {
    [o.e1, o.e2, o.e3, o.e4, o.e5, o.e6]
  }

  lemma WeightsSum(o: NoiseOptions)
    ensures Sum(Weights(o)) == WeightTotal(o)
  {
    var ws := Weights(o);
    assert Sum(ws[5..]) == o.e6 + Sum(ws[6..]);
    assert Sum(ws[4..]) == o.e5 + Sum(ws[5..]);
    assert Sum(ws[3..]) == o.e4 + Sum(ws[4..]);
    assert Sum(ws[2..]) == o.e3 + Sum(ws[3..]);
    assert Sum(ws[1..]) == o.e2 + Sum(ws[2..]);
  }

  /** The six samples, frequency doubling from 1 to 32. */
  function Samples(noise: Noise, x: real, y: real, seed: real): (vs: seq<real>)
    ensures |vs| == 6
  {
    [NoiseE(noise, 1.0 * x, 1.0 * y, seed), NoiseE(noise, 2.0 * x, 2.0 * y, seed),
     NoiseE(noise, 4.0 * x, 4.0 * y, seed), NoiseE(noise, 8.0 * x, 8.0 * y, seed),
     NoiseE(noise, 16.0 * x, 16.0 * y, seed), NoiseE(noise, 32.0 * x, 32.0 * y, seed)]
  }

  /** Moisture is the weighted average of the six samples. */
  lemma MoistureIsWeightedAverage(x: real, y: real, o: NoiseOptions, noise: Noise)
    requires WeightTotal(o) != 0.0
    ensures Sum(Weights(o)) == WeightTotal(o)
    ensures GenerateMoisture(x, y, o, noise) == WeightedAverage(Weights(o), Samples(noise, x, y, o.seed))
  {
    var ws, vs := Weights(o), Samples(noise, x, y, o.seed);
    WeightsSum(o);
    assert Dot(ws[5..], vs[5..]) == o.e6 * vs[5] + Dot(ws[6..], vs[6..]);
    assert Dot(ws[4..], vs[4..]) == o.e5 * vs[4] + Dot(ws[5..], vs[5..]);
    assert Dot(ws[3..], vs[3..]) == o.e4 * vs[3] + Dot(ws[4..], vs[4..]);
    assert Dot(ws[2..], vs[2..]) == o.e3 * vs[2] + Dot(ws[3..], vs[3..]);
    assert Dot(ws[1..], vs[1..]) == o.e2 * vs[1] + Dot(ws[2..], vs[2..]);
  }

  /** Elevation is moisture's formula raised to `pow`; with pow 1 the two fields coincide. */
  lemma ElevationIsMoisturePow(x: real, y: real, o: NoiseOptions, pow: nat, noise: Noise)
    requires WeightTotal(o) != 0.0
    ensures GenerateElevation(x, y, o, pow, noise) == Pow(GenerateMoisture(x, y, o, noise), pow)
    ensures GenerateElevation(x, y, o, 1, noise) == GenerateMoisture(x, y, o, noise)
  {
  }

  /** With non-negative weights and values in [0,1], the weighted sum lies in [0, Sum(ws)]. */
  lemma {:induction false} DotBounds(ws: seq<real>, vs: seq<real>)
    requires |ws| == |vs|
    requires forall i :: 0 <= i < |ws| ==> 0.0 <= ws[i]
    requires forall i :: 0 <= i < |vs| ==> 0.0 <= vs[i] <= 1.0
    ensures 0.0 <= Dot(ws, vs) <= Sum(ws)
  {
    if ws != [] {
      assert forall i :: 0 <= i < |ws| - 1 ==> ws[1..][i] == ws[i + 1] && vs[1..][i] == vs[i + 1];
      DotBounds(ws[1..], vs[1..]);
      HeadBound(ws[0], vs[0], Dot(ws[1..], vs[1..]), Sum(ws[1..]));
    }
  }

  /** One weighted term on top of a bounded rest stays bounded. */
  lemma HeadBound(w: real, v: real, rest: real, restSum: real)
    requires 0.0 <= w && 0.0 <= v <= 1.0 && 0.0 <= rest <= restSum
    ensures 0.0 <= w * v + rest <= w + restSum
  {
    assert 0.0 <= w * v <= w by {
      assert w * (1.0 - v) >= 0.0;
    }
  }

  /** A weighted average of values in [0,1] with non-negative weights of positive sum lies
      in [0,1]. */
  lemma WeightedAverageUnit(ws: seq<real>, vs: seq<real>)
    requires |ws| == |vs| && Sum(ws) > 0.0
    requires forall i :: 0 <= i < |ws| ==> 0.0 <= ws[i]
    requires forall i :: 0 <= i < |vs| ==> 0.0 <= vs[i] <= 1.0
    ensures 0.0 <= WeightedAverage(ws, vs) <= 1.0
  {
    DotBounds(ws, vs);
    QuotientUnit(Dot(ws, vs), Sum(ws));
  }

  lemma QuotientUnit(a: real, b: real)
    requires 0.0 <= a <= b && 0.0 < b
    ensures 0.0 <= a / b <= 1.0
  {
  }

  /** Moisture and elevation lie in [0,1] for non-negative weights with a positive sum. */
  lemma FieldsUnitRange(x: real, y: real, o: NoiseOptions, pow: nat, noise: Noise)
    requires NoiseInRange(noise)
    requires NonNegativeWeights(o)
    requires WeightTotal(o) > 0.0
    ensures 0.0 <= GenerateMoisture(x, y, o, noise) <= 1.0
    ensures 0.0 <= GenerateElevation(x, y, o, pow, noise) <= 1.0
  {
    MoistureIsWeightedAverage(x, y, o, noise);
    WeightsSum(o);
    WeightedAverageUnit(Weights(o), Samples(noise, x, y, o.seed));
    ElevationIsMoisturePow(x, y, o, pow, noise);
    PowUnitInterval(GenerateMoisture(x, y, o, noise), pow);
  }

  function Scale(c: real, ws: seq<real>): (r: seq<real>)
    ensures |r| == |ws| && forall i :: 0 <= i < |ws| ==> r[i] == c * ws[i]
  {
    seq(|ws|, i requires 0 <= i < |ws| => c * ws[i])
  }

  lemma ScaleTail(c: real, ws: seq<real>)
    requires ws != []
    ensures Scale(c, ws)[1..] == Scale(c, ws[1..])
  {
    assert forall i :: 0 <= i < |ws| - 1 ==> Scale(c, ws)[1..][i] == c * ws[i + 1] == Scale(c, ws[1..])[i];
  }

  lemma {:induction false} SumScale(c: real, ws: seq<real>)
    ensures Sum(Scale(c, ws)) == c * Sum(ws)
  {
    if ws != [] {
      SumScale(c, ws[1..]);
      ScaleTail(c, ws);
      Distribute(c, ws[0], Sum(ws[1..]));
    }
  }

  lemma {:induction false} DotScale(c: real, ws: seq<real>, vs: seq<real>)
    requires |ws| == |vs|
    ensures Dot(Scale(c, ws), vs) == c * Dot(ws, vs)
  {
    if ws != [] {
      DotScale(c, ws[1..], vs[1..]);
      ScaleTail(c, ws);
      var w, v := ws[0], vs[0];
      assert (c * w) * v == c * (w * v);
      Distribute(c, w * v, Dot(ws[1..], vs[1..]));
    }
  }

  lemma Distribute(c: real, a: real, b: real)
    ensures c * a + c * b == c * (a + b)
  {
  }

  /** Multiplying every weight by the same non-zero factor leaves the average unchanged. */
  lemma WeightedAverageScaleInvariant(c: real, ws: seq<real>, vs: seq<real>)
    requires |ws| == |vs| && Sum(ws) != 0.0 && c != 0.0
    ensures Sum(Scale(c, ws)) != 0.0
    ensures WeightedAverage(Scale(c, ws), vs) == WeightedAverage(ws, vs)
  {
    SumScale(c, ws);
    DotScale(c, ws, vs);
    CancelFactor(c, Dot(ws, vs), Sum(ws));
    assert WeightedAverage(Scale(c, ws), vs) == (c * Dot(ws, vs)) / (c * Sum(ws));
  }

  lemma CancelFactor(c: real, a: real, b: real)
    requires c != 0.0 && b != 0.0
    ensures (c * a) / (c * b) == a / b
  {
  }

  function ScaleWeights(o: NoiseOptions, c: real): NoiseOptions
  {
    o.(e1 := c * o.e1, e2 := c * o.e2, e3 := c * o.e3, e4 := c * o.e4, e5 := c * o.e5, e6 := c * o.e6)
  }

  /** Scaling all six weights by a positive factor changes neither field. */
  lemma FieldsScaleInvariant(x: real, y: real, o: NoiseOptions, c: real, pow: nat, noise: Noise)
    requires WeightTotal(o) != 0.0 && c > 0.0
    ensures WeightTotal(ScaleWeights(o, c)) != 0.0
    ensures GenerateMoisture(x, y, ScaleWeights(o, c), noise) == GenerateMoisture(x, y, o, noise)
    ensures GenerateElevation(x, y, ScaleWeights(o, c), pow, noise) == GenerateElevation(x, y, o, pow, noise)
  {
    var o2 := ScaleWeights(o, c);
    assert forall i :: 0 <= i < 6 ==> Weights(o2)[i] == Scale(c, Weights(o))[i];
    assert Weights(o2) == Scale(c, Weights(o));
    WeightsSum(o);
    WeightsSum(o2);
    WeightedAverageScaleInvariant(c, Weights(o), Samples(noise, x, y, o.seed));
    MoistureIsWeightedAverage(x, y, o, noise);
    MoistureIsWeightedAverage(x, y, o2, noise);
    ElevationIsMoisturePow(x, y, o, pow, noise);
    ElevationIsMoisturePow(x, y, o2, pow, noise);
  }
}
