/** GPU picking (pages/13-gpu-picking/main.ts): every cube is drawn a second time, off screen, in
    a flat colour that encodes its index; the pixel under the mouse is read back and decoded to
    decide which cube to highlight. */
module GpuPicking {
  import opened Common

  // --------------------------------------------------------------- the colour-id codec

  type Byte = x: int | 0 <= x < 256

  /** The first three bytes of the read-back RGBA pixel. */
  datatype Pixel = Pixel(r: Byte, g: Byte, b: Byte)

  /** A colour with channels in [0, 1]. */
  datatype Rgb = Rgb(r: real, g: real, b: real)

  /** The bytes of `Color.setHex(hex)`: `hex >> 16 & 255`, `hex >> 8 & 255` and `hex & 255`. The
      32-bit conversion of the shift keeps these bits, so the byte is the same for every
      non-negative hex. */
  function HexBytes(hex: nat): Pixel
  {
    Pixel((hex / 0x10000) % 256, (hex / 0x100) % 256, hex % 256)
  }

  /** `new Color().setHex(hex)`: each byte over 255. */
  function SetHex(hex: nat): (c: Rgb)
    ensures 0.0 <= c.r <= 1.0 && 0.0 <= c.g <= 1.0 && 0.0 <= c.b <= 1.0
  {
    var p := HexBytes(hex);
    Rgb(p.r as real / 255.0, p.g as real / 255.0, p.b as real / 255.0)
  }

  /** The picking colour of instance i: the hex value i + 1, so that black stays background. */
  function IdColor(i: nat): (p: Pixel)
    ensures i < 0xFF_FFFF ==> p.r * 0x10000 + p.g * 0x100 + p.b == i + 1
  {
    DecodeHex(i + 1);
    HexBytes(i + 1)
  }

  /** `((buffer[0] << 16) | (buffer[1] << 8) | buffer[2]) - 1`. The three shifted bytes occupy
      disjoint bits, so the `|` is their sum (ShiftOrIsSum). */
  function DecodeId(p: Pixel): (id: int)
    ensures -1 <= id < 0xFF_FFFF
    ensures id == -1 <==> p == Pixel(0, 0, 0)
  {
    p.r * 0x10000 + p.g * 0x100 + p.b - 1
  }

  /** On 32-bit words, or-ing the shifted bytes is adding them. */
  lemma ShiftOrIsSum(r: bv8, g: bv8, b: bv8)
    ensures (r as bv32 << 16) | (g as bv32 << 8) | (b as bv32)
      == (r as bv32) * 0x10000 + (g as bv32) * 0x100 + (b as bv32)
  {
  }

  /** Decoding a setHex colour recovers the hex value modulo 2^24, minus one. */
  lemma DecodeHex(hex: nat)
    ensures DecodeId(HexBytes(hex)) == hex % 0x100_0000 - 1
  {
    SplitMod(hex, 0x10000, 256);
    SplitMod(hex, 0x100, 256);
  }

  /** The remainder modulo a * b is the next digit in base a plus the remainder modulo a. */
  lemma SplitMod(x: nat, a: nat, b: nat)
    requires a > 0 && b > 0
    ensures x % (a * b) == ((x / a) % b) * a + x % a
  {
    var q, r := x / a, x % a;
    var q2, r2 := q / b, q % b;
    assert x == q2 * (a * b) + (r2 * a + r);
    assert 0 <= r2 * a + r < a * b by {
      assert r2 * a <= (b - 1) * a;
    }
    ModUnique(x, a * b, q2, r2 * a + r);
  }

  lemma ModUnique(x: int, m: int, q: int, r: int)
    requires m > 0 && x == q * m + r && 0 <= r < m
    ensures x % m == r
  {
    var q1, r1 := x / m, x % m;
    assert (q - q1) * m == r1 - r;
    MultipleBound(q - q1, m);
  }

  /** A non-zero multiple of m is at least m away from 0. */
  lemma MultipleBound(d: int, m: int)
    requires m > 0
    ensures d >= 1 ==> d * m >= m
    ensures d <= -1 ==> d * m <= -m
  {
    if d >= 1 {
      assert d * m == (d - 1) * m + m;
    } else if d <= -1 {
      assert d * m == (d + 1) * m - m;
    }
  }

  /** The encoding of instance i is inverted by the decode for every i < 2^24 - 1, and black
      decodes to -1, never an index. */
  lemma IdRoundTrip(i: nat)
    requires i < 0xFF_FFFF
    ensures DecodeId(IdColor(i)) == i
    ensures DecodeId(Pixel(0, 0, 0)) == -1
    ensures IdColor(i) != Pixel(0, 0, 0)
  {
    DecodeHex(i + 1);
  }

  /** Past 2^24 - 1 instances the colours repeat: instance i and i + 2^24 share a colour. */
  lemma IdColorsWrap(i: nat)
    ensures IdColor(i + 0x100_0000) == IdColor(i)
  {
    DecodeHex(i + 1);
    DecodeHex(i + 1 + 0x100_0000);
    ModUnique(i + 1 + 0x100_0000, 0x100_0000, (i + 1) / 0x100_0000 + 1, (i + 1) % 0x100_0000);
    DecodeInjective(IdColor(i + 0x100_0000), IdColor(i));
  }

  /** Distinct pixels decode to distinct ids. */
  lemma DecodeInjective(p: Pixel, q: Pixel)
    requires DecodeId(p) == DecodeId(q)
    ensures p == q
  {
  }

  // ------------------------------------------------------------------- scene building

  /** A cube's transform: Euler rotation and position. */
  datatype Matrix = Matrix(rx: real, ry: real, rz: real, x: real, y: real, z: real)

  /** The six `Math.random()` values one `randomizeMatrix` call draws, in call order: the
      three position coordinates, then the three rotation angles. */
  datatype Draws = Draws(u0: real, u1: real, u2: real, u3: real, u4: real, u5: real)

  /** The random source: the draws of the i-th `randomizeMatrix` call of a scene build. */
  type Random = nat -> Draws

  predicate UnitDraws(d: Draws)
  {
    0.0 <= d.u0 < 1.0 && 0.0 <= d.u1 < 1.0 && 0.0 <= d.u2 < 1.0
  }

  /** `randomizeMatrix(matrix)`. */
  function RandomizeMatrix(dist: real, d: Draws): (m: Matrix)
    ensures UnitDraws(d) && 0.0 < dist ==>
      -dist / 2.0 <= m.x < dist / 2.0 && -dist / 2.0 <= m.y < dist / 2.0 &&
      -dist / 2.0 <= m.z < dist / 2.0
  {
    var m := Matrix(d.u3, d.u4, d.u5, (d.u0 - 0.5) * dist, (d.u1 - 0.5) * dist, (d.u2 - 0.5) * dist);
    if UnitDraws(d) && 0.0 < dist then
      HalfOpen(d.u0, dist, m.x);
      HalfOpen(d.u1, dist, m.y);
      HalfOpen(d.u2, dist, m.z);
      m
    else m
  }

  /** Positions fill the cube [-dist/2, dist/2) on each axis. */
  lemma RandomizeMatrixBounds(dist: real, d: Draws)
    requires UnitDraws(d) && 0.0 < dist
    ensures var m := RandomizeMatrix(dist, d);
      -dist / 2.0 <= m.x < dist / 2.0 && -dist / 2.0 <= m.y < dist / 2.0 &&
      -dist / 2.0 <= m.z < dist / 2.0
  {
    var m := RandomizeMatrix(dist, d);
    HalfOpen(d.u0, dist, m.x);
    HalfOpen(d.u1, dist, m.y);
    HalfOpen(d.u2, dist, m.z);
  }

  lemma HalfOpen(u: real, dist: real, v: real)
    requires 0.0 <= u < 1.0 && 0.0 < dist && v == (u - 0.5) * dist
    ensures -dist / 2.0 <= v < dist / 2.0
  {
    assert (u - 0.5) * dist == u * dist - dist / 2.0;
    ScaleBelow(0.0, u, dist);
    assert dist - u * dist == (1.0 - u) * dist;
    assert (1.0 - u) * dist > 0.0;
  }

  /** The transforms of a scene of `count` cubes. */
  function Matrices(count: nat, dist: real, random: Random): (ms: seq<Matrix>)
    ensures |ms| == count
  {
    seq(count, i requires 0 <= i < count => RandomizeMatrix(dist, random(i)))
  }

  /** The picking colour of every instance, in instance order. */
  function IdColors(count: nat): (cs: seq<Pixel>)
    ensures |cs| == count
  {
    seq(count, i requires 0 <= i < count => IdColor(i))
  }

  /** One more cube appends its own transform. */
  lemma MatricesStep(i: nat, dist: real, random: Random)
    ensures Matrices(i + 1, dist, random) == Matrices(i, dist, random) + [RandomizeMatrix(dist, random(i))]
  {
    assert forall k :: 0 <= k < i ==> Matrices(i + 1, dist, random)[k] == Matrices(i, dist, random)[k];
  }

  /** One more instance appends its own colour. */
  lemma IdColorsStep(i: nat)
    ensures IdColors(i + 1) == IdColors(i) + [IdColor(i)]
  {
    assert forall k :: 0 <= k < i ==> IdColors(i + 1)[k] == IdColors(i)[k];
  }

  /** Vertices of a `BoxGeometry` with one segment per side: four per face. */
  const BoxVertexCount: nat := 24

  /** A colour buffer of n vertices, every vertex (r, g, b). */
  function Repeat(c: Rgb, n: nat): (s: seq<real>)
    ensures |s| == 3 * n
  {
    seq(3 * n, k requires 0 <= k < 3 * n => Channel(c, k % 3))
  }

  function Channel(c: Rgb, k: nat): real
    requires k < 3
  {
    if k == 0 then c.r else if k == 1 then c.g else c.b
  }

  /** Every vertex triple of a filled buffer is the colour. */
  lemma RepeatTriples(c: Rgb, n: nat, t: nat)
    requires t < n
    ensures Repeat(c, n)[3 * t..3 * t + 3] == [c.r, c.g, c.b]
  {
    var s := Repeat(c, n);
    assert s[3 * t] == c.r && s[3 * t + 1] == c.g && s[3 * t + 2] == c.b;
  }

  /** `new Float32Array(count * 3)` filled by the `j += 3` loop of the merged mode. */
  method ColorBuffer(vertexCount: nat, c: Rgb) returns (colors: array<real>)
    ensures fresh(colors)
    ensures colors[..] == Repeat(c, vertexCount)
  {
    colors := new real[vertexCount * 3];
    var j := 0;
    while j < colors.Length
      invariant j % 3 == 0 && j <= colors.Length
      invariant forall k :: 0 <= k < j ==> colors[k] == Channel(c, k % 3)
    {
      colors[j] := c.r;
      colors[j + 1] := c.g;
      colors[j + 2] := c.b;
      j := j + 3;
    }
    assert colors[..] == Repeat(c, vertexCount);
  }

  datatype Mode = Instanced | Merged

  datatype Params = Params(mode: Mode, count: nat, rotate: bool, dist: real)

  const DefaultParams := Params(Instanced, 5000, false, 30.0)

  // ------------------------------------------------------------------- the highlight

  /** The picking state: `lastId`, `highlightMesh.visible` and the transform copied onto the
      highlight mesh. */
  datatype Selection = Selection(lastId: Option<int>, visible: bool, pose: Matrix)

  /** The highlight is shown exactly when an id is remembered, and then that id is a cube and
      the highlight sits on it. */
  predicate Consistent(s: Selection, matrices: seq<Matrix>)
  {
    && (s.visible <==> s.lastId.Some?)
    && (s.lastId.Some? ==> 0 <= s.lastId.value < |matrices| && s.pose == matrices[s.lastId.value])
  }

  /** One `pick()` of the pixel under the mouse. */
  function PickSpec(s: Selection, matrices: seq<Matrix>, mouseX: real, pixel: Pixel): (t: Selection)
    ensures mouseX == -1.0 ==> t == s
    ensures t != s ==> t.lastId == (if 0 <= DecodeId(pixel) < |matrices| then Some(DecodeId(pixel)) else None)
    ensures Consistent(s, matrices) ==> Consistent(t, matrices)
  {
    var instanceId := DecodeId(pixel);
    if mouseX == -1.0 || s.lastId == Some(instanceId) then s
    else if 0 <= instanceId < |matrices| then Selection(Some(instanceId), true, matrices[instanceId])
    else s.(lastId := None, visible := false)
  }

  /** What a pick leaves: nothing changes while the mouse has not moved onto the canvas or the
      same id is read again; otherwise the id is remembered and shown exactly when it names a
      cube, and forgotten and hidden when it does not. */
  lemma PickOutcome(s: Selection, matrices: seq<Matrix>, mouseX: real, pixel: Pixel)
    requires Consistent(s, matrices)
    ensures mouseX == -1.0 ==> PickSpec(s, matrices, mouseX, pixel) == s
    ensures s.lastId == Some(DecodeId(pixel)) ==> PickSpec(s, matrices, mouseX, pixel) == s
    ensures mouseX != -1.0 ==>
      var t, id := PickSpec(s, matrices, mouseX, pixel), DecodeId(pixel);
      && (t.lastId == Some(id) <==> 0 <= id < |matrices|)
      && (0 <= id < |matrices| ==> t.visible && t.pose == matrices[id])
      && (!(0 <= id < |matrices|) ==> t.lastId == None && !t.visible)
  {
  }

  /** Picking keeps the highlight consistent with the remembered id. */
  lemma PickPreservesConsistency(s: Selection, matrices: seq<Matrix>, mouseX: real, pixel: Pixel)
    requires Consistent(s, matrices)
    ensures Consistent(PickSpec(s, matrices, mouseX, pixel), matrices)
  {
  }

  /** Reading the same pixel twice changes nothing the second time. */
  lemma PickIdempotent(s: Selection, matrices: seq<Matrix>, mouseX: real, pixel: Pixel)
    ensures var t := PickSpec(s, matrices, mouseX, pixel);
      PickSpec(t, matrices, mouseX, pixel) == t
  {
  }

  /** The pixel of cube i's picking colour selects cube i and moves the highlight onto it; the
      background selects nothing. */
  lemma PickFindsCube(s: Selection, matrices: seq<Matrix>, mouseX: real, i: nat)
    requires Consistent(s, matrices) && i < |matrices| && i < 0xFF_FFFF && mouseX != -1.0
    ensures var t := PickSpec(s, matrices, mouseX, IdColor(i));
      t.lastId == Some(i) && t.visible && t.pose == matrices[i]
    ensures var t := PickSpec(s, matrices, mouseX, Pixel(0, 0, 0));
      t.lastId == None && !t.visible
  {
    IdRoundTrip(i);
  }

  // ------------------------------------------------------------------------ the view

  class View {
    var params: Params
    var mouseX: real
    var mouseY: real
    var matrices: seq<Matrix>
    var lastId: Option<int>
    var highlightVisible: bool
    var highlightPose: Matrix
    /** Instanced mode: the picking colour of each instance. */
    var instanceColors: seq<Pixel>
    /** Merged mode: the colour buffer of each cube's picking geometry. */
    var pickingBuffers: seq<seq<real>>

    function Current(): Selection
      reads this
    {
      Selection(lastId, highlightVisible, highlightPose)
    }

    ghost predicate Valid()
      reads this
    {
      Consistent(Current(), matrices)
    }

    constructor(random: Random)
      ensures Valid() && params == DefaultParams && mouseX == -1.0 && mouseY == -1.0
      ensures matrices == Matrices(DefaultParams.count, DefaultParams.dist, random)
      ensures lastId == None && !highlightVisible
      ensures instanceColors == IdColors(5000) && pickingBuffers == []
    {
      params := DefaultParams;
      mouseX, mouseY := -1.0, -1.0;
      matrices := [];
      lastId := None;
      highlightVisible := false;
      highlightPose := Matrix(0.0, 0.0, 0.0, 0.0, 0.0, 0.0);
      instanceColors := [];
      pickingBuffers := [];
      new;
      InitScene(random);
    }

    /** `initScene()`: clear both groups, forget the selection, hide the highlight (it keeps its
        last transform), and rebuild the cubes in the current mode; the other mode's picking
        data stays empty. */
    method InitScene(random: Random)
      modifies this
      ensures Valid() && params == old(params) && mouseX == old(mouseX) && mouseY == old(mouseY)
      ensures lastId == None && !highlightVisible && highlightPose == old(highlightPose)
      ensures matrices == Matrices(params.count, params.dist, random)
      ensures params.mode == Instanced ==> instanceColors == IdColors(params.count) && pickingBuffers == []
      ensures params.mode == Merged ==>
        && instanceColors == []
        && |pickingBuffers| == params.count
        && forall i :: 0 <= i < params.count ==>
             pickingBuffers[i] == Repeat(SetHex(i + 1), BoxVertexCount)
    {
      matrices := [];
      instanceColors := [];
      pickingBuffers := [];
      lastId := None;
      highlightVisible := false;
      if params.mode == Instanced {
        AddInstanced(random);
      } else {
        AddMerged(random);
      }
    }

    /** `addInstanced()`: one transform and one picking colour per instance. */
    method AddInstanced(random: Random)
      requires matrices == []
      modifies this`matrices, this`instanceColors
      ensures matrices == Matrices(params.count, params.dist, random)
      ensures instanceColors == IdColors(params.count)
    {
      instanceColors := [];
      for i := 0 to params.count
        invariant matrices == Matrices(i, params.dist, random)
        invariant instanceColors == IdColors(i)
      {
        var matrix := RandomizeMatrix(params.dist, random(i));
        matrices := matrices + [matrix];
        instanceColors := instanceColors + [IdColor(i)];
        MatricesStep(i, params.dist, random);
        IdColorsStep(i);
      }
    }

    /** `addMerged()`: one transform and one filled picking colour buffer per cube. */
    method AddMerged(random: Random)
      requires matrices == []
      modifies this`matrices, this`pickingBuffers
      ensures matrices == Matrices(params.count, params.dist, random)
      ensures |pickingBuffers| == params.count
      ensures forall i :: 0 <= i < params.count ==>
        pickingBuffers[i] == Repeat(SetHex(i + 1), BoxVertexCount)
    {
      pickingBuffers := [];
      for i := 0 to params.count
        invariant matrices == Matrices(i, params.dist, random)
        invariant |pickingBuffers| == i
        invariant forall k :: 0 <= k < i ==> pickingBuffers[k] == Repeat(SetHex(k + 1), BoxVertexCount)
      {
        var matrix := RandomizeMatrix(params.dist, random(i));
        matrices := matrices + [matrix];
        var pColors := ColorBuffer(BoxVertexCount, SetHex(i + 1));
        pickingBuffers := pickingBuffers + [pColors[..]];
      }
    }

    /** `pick()`, given the pixel the picking scene renders under the mouse. */
    method Pick(pixel: Pixel)
      requires Valid()
      modifies this`lastId, this`highlightVisible, this`highlightPose
      ensures Valid()
      ensures Current() == PickSpec(old(Current()), matrices, mouseX, pixel)
    {
      PickPreservesConsistency(Current(), matrices, mouseX, pixel);
      if mouseX == -1.0 {
        return;
      }
      var id := pixel.r * 0x10000 + pixel.g * 0x100 + pixel.b;
      var instanceId := id - 1;
      if Some(instanceId) != lastId {
        if 0 <= instanceId < |matrices| {
          highlightVisible := true;
          highlightPose := matrices[instanceId];
          lastId := Some(instanceId);
        } else {
          highlightVisible := false;
          lastId := None;
        }
      }
    }

    /** The `pointermove` listener. */
    method OnPointerMove(x: real, y: real)
      modifies this`mouseX, this`mouseY
      ensures mouseX == x && mouseY == y
    {
      mouseX, mouseY := x, y;
    }

    /** The count slider: the binding stores every value, the scene is rebuilt only on the
        final event of a drag. */
    method OnCountChange(value: nat, last: bool, random: Random)
      requires Valid()
      modifies this
      ensures Valid() && params == old(params).(count := value)
      ensures last ==> matrices == Matrices(value, params.dist, random) && lastId == None
      ensures !last ==> matrices == old(matrices) && Current() == old(Current())
    {
      params := params.(count := value);
      if last {
        InitScene(random);
      }
    }

    /** The dist slider: like the count slider, the cubes are scattered anew over the new cube
        only on the final event of a drag. */
    method OnDistChange(value: real, last: bool, random: Random)
      requires Valid()
      modifies this
      ensures Valid() && params == old(params).(dist := value)
      ensures last ==> matrices == Matrices(params.count, value, random) && lastId == None
      ensures !last ==> matrices == old(matrices) && Current() == old(Current())
    {
      params := params.(dist := value);
      if last {
        InitScene(random);
      }
    }

    /** The mode selector rebuilds the scene on every change. */
    method OnModeChange(mode: Mode, random: Random)
      modifies this
      ensures Valid() && params == old(params).(mode := mode)
      ensures matrices == Matrices(params.count, params.dist, random) && lastId == None
    {
      params := params.(mode := mode);
      InitScene(random);
    }
  }
}
