/** The exploded-building page (pages/15-building-explode-effect/main.ts): a stack of floor
    groups topped by a roof slab, pulled apart by an explode factor, with one floor selected
    (scaled to full size, the others shrunk and faded) and a glass or solid wall mode. The state
    modelled is the one every tween ends in. */
module BuildingExplode {
  import opened Common

  datatype ViewMode = Transparent | Solid

  /** The panel's bound values. */
  datatype Params = Params(viewMode: ViewMode, explode: real, floorSelect: int)

  const DefaultParams := Params(Transparent, 0.0, -1)

  /** The building's dimensions: floor count, storey height, slab footprint and explode
      spacing. */
  datatype Config = Config(floorCount: nat, floorHeight: real, sizeX: real, sizeZ: real,
                           spacing: real)

  const DefaultConfig := Config(8, 4.0, 40.0, 25.0, 10.0)

  datatype Vec = Vec(x: real, y: real, z: real)

  /** What a child of a floor group is; columns carry their (x, z) position. */
  datatype Kind = Slab | SlabEdges | Wall | Core | Column(x: real, z: real)

  datatype Material = SlabMaterial | EdgeMaterial | Glass | SolidWall | CoreMaterial | ColumnMaterial

  /** One child of a floor group with its material's `transparent` flag and opacity. */
  datatype Part = Part(kind: Kind, name: string, isMesh: bool, material: Material,
                       transparent: bool, opacity: real)

  /** A floor group: `userData` (id, isFloor, originalY), its current height and scale, and its
      children in the order they were added. */
  datatype Floor = Floor(id: int, isFloor: bool, originalY: real, y: real, scale: real,
                         parts: seq<Part>)

  const WallName := "ExteriorWall"

  // ------------------------------------------------------------------- columns

  /** `for (v = from; v <= to; v += step)`: the values the loop variable takes. */
  function Steps(from: real, to: real, step: real): seq<real>
    requires step >= 1.0
    decreases if from <= to then (to - from).Floor + 1 else 0
  {
    if from > to then [] else [from] + Steps(from + step, to, step)
  }

  /** The loop variable never starts below `from` and never passes `to`. */
  lemma {:induction false} StepsBounds(from: real, to: real, step: real, v: real)
    requires step >= 1.0
    ensures v in Steps(from, to, step) ==> from <= v <= to
    decreases if from <= to then (to - from).Floor + 1 else 0
  {
    if from <= to {
      StepsBounds(from + step, to, step, v);
    }
  }

  /** The core is 8 x 6; a column is not placed where it would stand within 1 of the core. */
  const CoreSizeX := 8.0
  const CoreSizeZ := 6.0

  function Abs(r: real): real
  {
    if r < 0.0 then -r else r
  }

  predicate Skipped(x: real, z: real)
    ensures Skipped(x, z) <==> -5.0 < x < 5.0 && -4.0 < z < 4.0
  {
    Abs(x) < CoreSizeX / 2.0 + 1.0 && Abs(z) < CoreSizeZ / 2.0 + 1.0
  }

  /** The columns one x position contributes, in z order. */
  function ColumnRow(x: real, zs: seq<real>): seq<(real, real)>
  {
    if |zs| == 0 then []
    else (if Skipped(x, zs[0]) then [] else [(x, zs[0])]) + ColumnRow(x, zs[1..])
  }

  /** The columns of the x-outer, z-inner loop. */
  function ColumnGrid(xs: seq<real>, zs: seq<real>): seq<(real, real)>
  {
    if |xs| == 0 then [] else ColumnRow(xs[0], zs) + ColumnGrid(xs[1..], zs)
  }

  function XSteps(halfX: real): seq<real>
  {
    Steps(-halfX + 2.0, halfX - 2.0, 12.0)
  }

  function ZSteps(halfZ: real): seq<real>
  {
    Steps(-halfZ + 2.0, halfZ - 2.0, 10.0)
  }

  function Columns(halfX: real, halfZ: real): seq<(real, real)>
  {
    ColumnGrid(XSteps(halfX), ZSteps(halfZ))
  }

  lemma {:induction false} ColumnRowMembers(x: real, zs: seq<real>, p: (real, real))
    ensures p in ColumnRow(x, zs) <==> p.0 == x && p.1 in zs && !Skipped(p.0, p.1)
  {
    if |zs| > 0 {
      ColumnRowMembers(x, zs[1..], p);
      assert zs == [zs[0]] + zs[1..];
    }
  }

  /** One turn of the z loop: the column at z, unless skipped, moves from the positions still
      to visit to the row built so far. */
  lemma ColumnRowStep(row: seq<(real, real)>, x: real, z: real, rest: seq<real>,
                      whole: seq<(real, real)>)
    requires row + ColumnRow(x, [z] + rest) == whole
    ensures (if Skipped(x, z) then row else row + [(x, z)]) + ColumnRow(x, rest) == whole
  {
    assert ([z] + rest)[0] == z && ([z] + rest)[1..] == rest;
  }

  /** A position gets a column exactly when it is on the loop lattice and outside the core's
      margin. */
  lemma {:induction false} ColumnGridMembers(xs: seq<real>, zs: seq<real>, p: (real, real))
    ensures p in ColumnGrid(xs, zs) <==> p.0 in xs && p.1 in zs && !Skipped(p.0, p.1)
  {
    if |xs| > 0 {
      ColumnRowMembers(xs[0], zs, p);
      ColumnGridMembers(xs[1..], zs, p);
      assert xs == [xs[0]] + xs[1..];
    }
  }

  /** With the 40 x 25 slab the loops visit x in {-18, -6, 6, 18} and z in {-10.5, -0.5, 9.5};
      no position is within the core's margin, so all twelve columns are placed. */
  lemma DefaultColumns()
    ensures XSteps(20.0) == [-18.0, -6.0, 6.0, 18.0]
    ensures ZSteps(12.5) == [-10.5, -0.5, 9.5]
    ensures |Columns(20.0, 12.5)| == 12
  {
    assert Steps(30.0, 18.0, 12.0) == [];
    assert Steps(18.0, 18.0, 12.0) == [18.0];
    assert Steps(6.0, 18.0, 12.0) == [6.0, 18.0];
    assert Steps(-6.0, 18.0, 12.0) == [-6.0, 6.0, 18.0];
    assert Steps(19.5, 10.5, 10.0) == [];
    assert Steps(9.5, 10.5, 10.0) == [9.5];
    assert Steps(-0.5, 10.5, 10.0) == [-0.5, 9.5];
    var zs := [-10.5, -0.5, 9.5];
    assert zs[1..] == [-0.5, 9.5] && zs[1..][1..] == [9.5] && zs[1..][1..][1..] == [];
    forall x | x in [-18.0, -6.0, 6.0, 18.0]
      ensures |ColumnRow(x, zs)| == 3
    {
      assert ColumnRow(x, [9.5]) == [(x, 9.5)];
      assert ColumnRow(x, [-0.5, 9.5]) == [(x, -0.5), (x, 9.5)];
    }
    var xs := [-18.0, -6.0, 6.0, 18.0];
    assert xs[1..] == [-6.0, 6.0, 18.0] && xs[1..][1..] == [6.0, 18.0];
    assert xs[1..][1..][1..] == [18.0] && xs[1..][1..][1..][1..] == [];
  }

  /** `generateRealInterior`'s column loops: x outer in steps of 12, z inner in steps of 10,
      skipping the core's margin. */
  method GenerateColumns(halfX: real, halfZ: real) returns (columns: seq<(real, real)>)
    ensures columns == Columns(halfX, halfZ)
  {
    columns := [];
    var x := -halfX + 2.0;
    while x <= halfX - 2.0
      invariant columns + ColumnGrid(Steps(x, halfX - 2.0, 12.0), ZSteps(halfZ)) == Columns(halfX, halfZ)
      decreases |Steps(x, halfX - 2.0, 12.0)|
    {
      ghost var rest := Steps(x + 12.0, halfX - 2.0, 12.0);
      assert Steps(x, halfX - 2.0, 12.0) == [x] + rest;
      assert ([x] + rest)[1..] == rest;
      var row := GenerateColumnRow(x, halfZ);
      columns := columns + row;
      x := x + 12.0;
    }
  }

  /** The inner z loop for one x. */
  method GenerateColumnRow(x: real, halfZ: real) returns (row: seq<(real, real)>)
    ensures row == ColumnRow(x, ZSteps(halfZ))
  {
    row := [];
    var z := -halfZ + 2.0;
    while z <= halfZ - 2.0
      invariant row + ColumnRow(x, Steps(z, halfZ - 2.0, 10.0)) == ColumnRow(x, ZSteps(halfZ))
      decreases |Steps(z, halfZ - 2.0, 10.0)|
    {
      ghost var rest := Steps(z + 10.0, halfZ - 2.0, 10.0);
      assert Steps(z, halfZ - 2.0, 10.0) == [z] + rest;
      ColumnRowStep(row, x, z, rest, ColumnRow(x, ZSteps(halfZ)));
      if Abs(x) < CoreSizeX / 2.0 + 1.0 && Abs(z) < CoreSizeZ / 2.0 + 1.0 {
        z := z + 10.0;
        continue;
      }
      row := row + [(x, z)];
      z := z + 10.0;
    }
  }

  // ------------------------------------------------------------------ the building

  const SlabPart := Part(Slab, "", true, SlabMaterial, true, 1.0)
  const EdgePart := Part(SlabEdges, "", false, EdgeMaterial, true, 0.4)
  const WallPart := Part(Wall, WallName, true, Glass, true, 0.15)
  const CorePart := Part(Core, "", true, CoreMaterial, true, 1.0)

  function ColumnParts(columns: seq<(real, real)>): seq<Part>
  {
    seq(|columns|, j requires 0 <= j < |columns| =>
      Part(Column(columns[j].0, columns[j].1), "", true, ColumnMaterial, true, 1.0))
  }

  /** The children of a floor group: slab and its edges, then, below the roof, the glass wall,
      the core and the columns. */
  function FloorParts(isRoof: bool, columns: seq<(real, real)>): seq<Part>
  {
    [SlabPart, EdgePart] + (if isRoof then [] else [WallPart, CorePart] + ColumnParts(columns))
  }

  /** Group k of `generateBuilding`. */
  function NewFloor(c: Config, k: nat): Floor
  {
    var isRoof := k == c.floorCount;
    Floor(k, !isRoof, k as real * c.floorHeight, k as real * c.floorHeight, 1.0,
          FloorParts(isRoof, Columns(c.sizeX / 2.0, c.sizeZ / 2.0)))
  }

  /** The floorCount + 1 groups, bottom to top. */
  function Building(c: Config): seq<Floor>
  {
    seq(c.floorCount + 1, k requires 0 <= k <= c.floorCount => NewFloor(c, k))
  }

  /** One turn of `generateBuilding`'s loop builds group i of the building. */
  lemma FloorStep(c: Config, i: nat, parts: seq<Part>, y: real)
    requires i <= c.floorCount && y == i as real * c.floorHeight
    requires parts == FloorParts(i == c.floorCount, Columns(c.sizeX / 2.0, c.sizeZ / 2.0))
    ensures Floor(i, i != c.floorCount, y, y, 1.0, parts) == NewFloor(c, i) == Building(c)[i]
    ensures Building(c)[..i + 1] == Building(c)[..i] + [Building(c)[i]]
  {
  }

  /** The first child named ExteriorWall, as `getObjectByName` finds it. */
  function FirstWall(ps: seq<Part>): (r: Option<nat>)
    ensures r.Some? ==> r.value < |ps| && ps[r.value].name == WallName
    ensures r.Some? ==> forall j :: 0 <= j < r.value ==> ps[j].name != WallName
    ensures r.None? ==> forall j :: 0 <= j < |ps| ==> ps[j].name != WallName
  {
    if |ps| == 0 then None
    else if ps[0].name == WallName then Some(0)
    else match FirstWall(ps[1..])
      case None => None
      case Some(i) => Some(i + 1)
  }

  /** Group k has id k, starts at height k * floorHeight at scale 1, and is a floor (with an
      exterior wall, its third child) exactly when it is not the top group, the roof. */
  lemma BuildingLayout(c: Config, k: nat)
    requires k <= c.floorCount
    ensures |Building(c)| == c.floorCount + 1
    ensures var f := Building(c)[k];
      && f.id == k && f.originalY == f.y == k as real * c.floorHeight && f.scale == 1.0
      && (f.isFloor <==> k < c.floorCount)
      && FirstWall(f.parts) == (if f.isFloor then Some(2) else None)
  {
    var f := Building(c)[k];
    if k < c.floorCount {
      assert f.parts[0].name == "" && f.parts[1].name == "" && f.parts[2] == WallPart;
      assert FirstWall(f.parts[2..]) == Some(0);
      assert f.parts[1..][1..] == f.parts[2..];
    } else {
      assert f.parts == [SlabPart, EdgePart];
      assert FirstWall(f.parts[1..][1..]) == None;
    }
  }

  // ------------------------------------------------------------------- explode

  /** `originalY + index * explode * spacing`. */
  function ExplodeTarget(originalY: real, index: nat, explode: real, spacing: real): (y: real)
    ensures explode == 0.0 || index == 0 ==> y == originalY
    ensures index > 0 && explode > 0.0 && spacing > 0.0 ==> y > originalY
  {
    originalY + index as real * explode * spacing
  }

  function Exploded(fs: seq<Floor>, explode: real, spacing: real): seq<Floor>
  {
    seq(|fs|, k requires 0 <= k < |fs| => fs[k].(y := ExplodeTarget(fs[k].originalY, k, explode, spacing)))
  }

  /** An explode factor of 0 puts every floor back at its original height, and in a generated
      building consecutive groups end up `floorHeight + explode * spacing` apart. */
  lemma ExplodeSpacing(c: Config, explode: real, k: nat)
    requires k < c.floorCount
    ensures var fs := Exploded(Building(c), explode, c.spacing);
      && |fs| == c.floorCount + 1
      && fs[k + 1].y - fs[k].y == c.floorHeight + explode * c.spacing
      && (explode == 0.0 ==> fs[k].y == fs[k].originalY == k as real * c.floorHeight)
  {
    var r := k as real;
    assert (r + 1.0) * c.floorHeight == r * c.floorHeight + c.floorHeight;
    assert (r + 1.0) * explode * c.spacing == r * explode * c.spacing + explode * c.spacing;
    assert (k + 1) as real == r + 1.0;
  }

  // ------------------------------------------------------------------ selection

  /** The scale of a floor after `selectFloor`: full size when chosen or when none is. */
  function SelectScale(chosen: bool): real
  {
    if chosen then 1.0 else 0.8
  }

  /** The opacity `selectFloor` gives a mesh child. */
  function SelectOpacity(chosen: bool, transparent: bool, name: string): (o: real)
    ensures o == 0.05 <==> !chosen
    ensures o == 1.0 <==> chosen && !transparent
    ensures 0.05 <= o <= 1.0
  {
    if chosen then (if transparent then (if name == WallName then 0.15 else 0.3) else 1.0)
    else 0.05
  }

  function SelectPart(p: Part, chosen: bool): Part
  {
    if p.isMesh then p.(opacity := SelectOpacity(chosen, p.transparent, p.name)) else p
  }

  function FadedParts(ps: seq<Part>, chosen: bool): seq<Part>
  {
    seq(|ps|, j requires 0 <= j < |ps| => SelectPart(ps[j], chosen))
  }

  function SelectedFloor(f: Floor, id: int): Floor
  {
    var chosen := f.id == id || id == -1;
    f.(scale := SelectScale(chosen), parts := FadedParts(f.parts, chosen))
  }

  function Selected(fs: seq<Floor>, id: int): seq<Floor>
  {
    seq(|fs|, k requires 0 <= k < |fs| => SelectedFloor(fs[k], id))
  }

  /** The camera position and orbit target after the floor loop of `selectFloor`: the last
      floor whose id matches pulls the camera to it. */
  function CameraAfter(fs: seq<Floor>, id: int, cam: (Vec, Vec)): (Vec, Vec)
  {
    if |fs| == 0 then cam
    else
      var f := fs[|fs| - 1];
      if f.id == id then (Vec(40.0, f.y + 30.0, 40.0), Vec(0.0, f.y, 0.0))
      else CameraAfter(fs[..|fs| - 1], id, cam)
  }

  /** The overview camera and the orbit target at mid-height of the building. */
  function Overview(c: Config): (Vec, Vec)
  {
    (Vec(60.0, 60.0, 60.0), Vec(0.0, c.floorCount as real * c.floorHeight / 2.0, 0.0))
  }

  /** When group k has id k, selecting id i aims the camera at group i, 30 above it; an id no
      group carries (-1 among them) leaves the camera alone. */
  lemma {:induction false} CameraAim(fs: seq<Floor>, id: int, cam: (Vec, Vec))
    requires forall k :: 0 <= k < |fs| ==> fs[k].id == k
    ensures 0 <= id < |fs| ==>
      CameraAfter(fs, id, cam) == (Vec(40.0, fs[id].y + 30.0, 40.0), Vec(0.0, fs[id].y, 0.0))
    ensures !(0 <= id < |fs|) ==> CameraAfter(fs, id, cam) == cam
  {
    if |fs| > 0 {
      CameraAim(fs[..|fs| - 1], id, cam);
    }
  }

  /** Selecting a floor: it and only it is at full size; every other floor is at 0.8 with its
      meshes at opacity 0.05; the chosen floor's meshes are 0.15 (glass wall) or 0.3 (other
      transparent) or 1 (opaque); line children keep their opacity. With id -1 every floor counts
      as chosen. */
  lemma SelectRules(fs: seq<Floor>, id: int, k: nat, j: nat)
    requires k < |fs| && j < |fs[k].parts|
    ensures var f, g := fs[k], Selected(fs, id)[k];
      var chosen := f.id == id || id == -1;
      && |Selected(fs, id)| == |fs| && |g.parts| == |f.parts|
      && g.id == f.id && g.y == f.y
      && (g.scale == 1.0 <==> chosen) && (!chosen ==> g.scale == 0.8)
      && (f.parts[j].isMesh && !chosen ==> g.parts[j].opacity == 0.05)
      && (f.parts[j].isMesh && chosen && f.parts[j].transparent ==>
            g.parts[j].opacity == (if f.parts[j].name == WallName then 0.15 else 0.3))
      && (f.parts[j].isMesh && chosen && !f.parts[j].transparent ==> g.parts[j].opacity == 1.0)
      && (!f.parts[j].isMesh ==> g.parts[j] == f.parts[j])
  {
  }

  // ------------------------------------------------------------------ view mode

  /** The wall opacity of `updateViewMode`. */
  function WallOpacity(chosen: bool, mode: ViewMode): (o: real)
    ensures o == 0.05 <==> !chosen
    ensures o == 1.0 <==> chosen && mode != Transparent
  {
    if chosen then (if mode == Transparent then 0.15 else 1.0) else 0.05
  }

  function ViewModeFloor(f: Floor, mode: ViewMode, floorSelect: int): Floor
  {
    match FirstWall(f.parts)
    case None => f
    case Some(w) =>
      var chosen := f.id == floorSelect || floorSelect == -1;
      var material := if mode == Transparent then Glass else SolidWall;
      f.(parts := f.parts[w := f.parts[w].(material := material, transparent := true,
                                          opacity := WallOpacity(chosen, mode))])
  }

  function ViewModed(fs: seq<Floor>, mode: ViewMode, floorSelect: int): seq<Floor>
  {
    seq(|fs|, k requires 0 <= k < |fs| => ViewModeFloor(fs[k], mode, floorSelect))
  }

  /** In a generated building the view mode swaps the wall material of every floor but the roof
      and sets its opacity; every other child and the roof are untouched. */
  lemma ViewModeRules(c: Config, mode: ViewMode, floorSelect: int, k: nat, j: nat)
    requires k <= c.floorCount && j < |Building(c)[k].parts|
    ensures var f, g := Building(c)[k], ViewModed(Building(c), mode, floorSelect)[k];
      && |g.parts| == |f.parts| && g.id == f.id && g.y == f.y && g.scale == f.scale
      && (j == 2 && f.isFloor ==>
            && g.parts[j].material == (if mode == Transparent then Glass else SolidWall)
            && g.parts[j].opacity == WallOpacity(k == floorSelect || floorSelect == -1, mode))
      && (j != 2 || !f.isFloor ==> g.parts[j] == f.parts[j])
  {
    BuildingLayout(c, k);
  }

  /** In transparent mode `selectFloor` and `updateViewMode` agree on the wall's opacity; in solid
      mode they do not: selecting a floor fades its solid wall to 0.15, because the solid wall's
      material is also flagged transparent. */
  lemma WallOpacityAgreement(chosen: bool)
    ensures SelectOpacity(chosen, true, WallName) == WallOpacity(chosen, Transparent)
    ensures chosen ==> SelectOpacity(chosen, true, WallName) == 0.15 != WallOpacity(chosen, Solid)
    ensures !chosen ==> SelectOpacity(chosen, true, WallName) == WallOpacity(chosen, Solid)
  {
  }

  // -------------------------------------------------------------------- options

  function DigitChar(d: nat): char
    requires d < 10
  {
    "0123456789"[d]
  }

  /** The decimal form of a natural number, as a template literal prints it. */
  function Decimal(n: nat): (s: string)
    ensures |s| >= 1
  {
    if n < 10 then [DigitChar(n)] else Decimal(n / 10) + [DigitChar(n % 10)]
  }

  /** The floor select options in insertion order: None first, then `Floor k+1` for each floor
      below the roof. */
  function FloorOptionsSpec(floorCount: nat): (options: seq<(string, int)>)
    ensures |options| == floorCount + 1 && options[0] == ("None", -1)
    ensures forall k :: 0 < k < |options| ==> options[k].1 == k - 1
  {
    [("None", -1)] + seq(floorCount, k requires 0 <= k < floorCount => ("Floor " + Decimal(k + 1), k))
  }

  /** The option loop of `addPane`. */
  method FloorOptions(floorCount: nat) returns (options: seq<(string, int)>)
    ensures options == FloorOptionsSpec(floorCount)
  {
    options := [("None", -1)];
    for i := 0 to floorCount
      invariant options == FloorOptionsSpec(floorCount)[..i + 1]
    {
      options := options + [("Floor " + Decimal(i + 1), i)];
    }
  }

  /** The offered values are -1 and exactly the ids of the floors below the roof; the roof's id
      is never offered, and the labels start with the floor's 1-based number. */
  lemma FloorOptionValues(floorCount: nat, v: int)
    ensures (exists o :: o in FloorOptionsSpec(floorCount) && o.1 == v) <==> -1 <= v < floorCount
    ensures forall k :: 1 <= k <= floorCount ==>
      FloorOptionsSpec(floorCount)[k] == ("Floor " + Decimal(k), k - 1)
    ensures |FloorOptionsSpec(floorCount)| == floorCount + 1
  {
    var opts := FloorOptionsSpec(floorCount);
    if -1 <= v < floorCount {
      assert opts[v + 1].1 == v;
    }
  }

  // ---------------------------------------------------------------------- view

  class View {
    const config: Config
    var params: Params
    var floors: seq<Floor>
    var camera: Vec
    var target: Vec

    /** The constructor: overview camera, then the building. */
    constructor(config: Config)
      ensures this.config == config && params == DefaultParams
      ensures floors == Building(config) && (camera, target) == Overview(config)
    {
      this.config := config;
      params := DefaultParams;
      floors := [];
      camera, target := Overview(config).0, Overview(config).1;
      new;
      GenerateBuilding();
    }

    /** `generateBuilding`: push floorCount + 1 groups, the last one the roof. */
    method GenerateBuilding()
      modifies this`floors
      ensures floors == old(floors) + Building(config)
    {
      ghost var start := floors;
      var floorCount := config.floorCount;
      var floorHeight := config.floorHeight;
      for i := 0 to floorCount + 1
        invariant floors == start + Building(config)[..i]
      {
        var isRoof := i == floorCount;
        var parts := [SlabPart, EdgePart];
        if !isRoof {
          var columns := GenerateColumns(config.sizeX / 2.0, config.sizeZ / 2.0);
          parts := parts + ([WallPart, CorePart] + ColumnParts(columns));
        }
        var y := i as real * floorHeight;
        FloorStep(config, i, parts, y);
        floors := floors + [Floor(i, !isRoof, y, y, 1.0, parts)];
      }
      assert Building(config)[..floorCount + 1] == Building(config);
    }

    /** `updateExplode`: move each group to its explode target. */
    method UpdateExplode()
      modifies this`floors
      ensures floors == Exploded(old(floors), params.explode, config.spacing)
    {
      ghost var start := floors;
      for k := 0 to |floors|
        invariant |floors| == |start|
        invariant forall j :: 0 <= j < k ==>
          floors[j] == start[j].(y := ExplodeTarget(start[j].originalY, j, params.explode, config.spacing))
        invariant forall j :: k <= j < |floors| ==> floors[j] == start[j]
      {
        var targetY := floors[k].originalY + k as real * params.explode * config.spacing;
        floors := floors[k := floors[k].(y := targetY)];
      }
    }

    /** `updateViewMode`: swap each wall's material and set its opacity. */
    method UpdateViewMode()
      modifies this`floors
      ensures floors == ViewModed(old(floors), params.viewMode, params.floorSelect)
    {
      ghost var start := floors;
      var isTransparent := params.viewMode == Transparent;
      for k := 0 to |floors|
        invariant |floors| == |start|
        invariant forall j :: 0 <= j < k ==>
          floors[j] == ViewModeFloor(start[j], params.viewMode, params.floorSelect)
        invariant forall j :: k <= j < |floors| ==> floors[j] == start[j]
      {
        var floor := floors[k];
        var wall := FirstWall(floor.parts);
        if wall.Some? {
          var w := wall.value;
          var isSelected := floor.id == params.floorSelect;
          var isNoneSelected := params.floorSelect == -1;
          var material := if isTransparent then Glass else SolidWall;
          var opacity := if isSelected || isNoneSelected then (if isTransparent then 0.15 else 1.0) else 0.05;
          var part := floor.parts[w].(material := material, transparent := true, opacity := opacity);
          floors := floors[k := floor.(parts := floor.parts[w := part])];
        }
      }
    }

    /** `floor.traverse` inside `selectFloor`: set the opacity of every mesh child. */
    static method FadeParts(parts: seq<Part>, chosen: bool) returns (faded: seq<Part>)
      ensures faded == FadedParts(parts, chosen)
    {
      faded := [];
      for j := 0 to |parts|
        invariant faded == FadedParts(parts, chosen)[..j]
      {
        var child := parts[j];
        if child.isMesh {
          var opacity := if chosen then (if child.transparent then (if child.name == WallName then 0.15 else 0.3) else 1.0) else 0.05;
          child := child.(opacity := opacity);
        }
        faded := faded + [child];
      }
    }

    /** `selectFloor(id)`: scale and fade every floor, aim the camera at the chosen one, and
        return to the overview when none is chosen. */
    method SelectFloor(id: int)
      modifies this`floors, this`camera, this`target
      ensures floors == Selected(old(floors), id)
      ensures (camera, target) ==
        (if id == -1 then Overview(config) else CameraAfter(old(floors), id, (old(camera), old(target))))
    {
      ghost var start := floors;
      ghost var cam := (camera, target);
      for k := 0 to |floors|
        invariant |floors| == |start|
        invariant forall j :: 0 <= j < k ==> floors[j] == SelectedFloor(start[j], id)
        invariant forall j :: k <= j < |floors| ==> floors[j] == start[j]
        invariant (camera, target) == CameraAfter(start[..k], id, cam)
      {
        var floor := floors[k];
        var isSelected := floor.id == id;
        var isNoneSelected := id == -1;
        var chosen := isSelected || isNoneSelected;
        var parts := FadeParts(floor.parts, chosen);
        floors := floors[k := floor.(scale := if chosen then 1.0 else 0.8, parts := parts)];
        if isSelected {
          camera := Vec(40.0, floor.y + 30.0, 40.0);
          target := Vec(0.0, floor.y, 0.0);
        }
        assert start[..k + 1][..k] == start[..k];
      }
      assert start[..|start|] == start;
      if id == -1 {
        camera, target := Overview(config).0, Overview(config).1;
      }
    }

    /** The view mode binding's change handler. */
    method OnViewModeChange(mode: ViewMode)
      modifies this`params, this`floors
      ensures params == old(params).(viewMode := mode)
      ensures floors == ViewModed(old(floors), mode, params.floorSelect)
    {
      params := params.(viewMode := mode);
      UpdateViewMode();
    }

    /** The explode binding's change handler. */
    method OnExplodeChange(explode: real)
      modifies this`params, this`floors
      ensures params == old(params).(explode := explode)
      ensures floors == Exploded(old(floors), explode, config.spacing)
    {
      params := params.(explode := explode);
      UpdateExplode();
    }

    /** The floor binding's change handler. */
    method OnFloorChange(id: int)
      modifies this`params, this`floors, this`camera, this`target
      ensures params == old(params).(floorSelect := id)
      ensures floors == Selected(old(floors), id)
      ensures (camera, target) ==
        (if id == -1 then Overview(config) else CameraAfter(old(floors), id, (old(camera), old(target))))
    {
      params := params.(floorSelect := id);
      SelectFloor(id);
    }

    /** The Reset View button: default parameters, then explode, view mode and select again. */
    method Reset()
      modifies this`params, this`floors, this`camera, this`target
      ensures params == DefaultParams
      ensures floors == Selected(ViewModed(Exploded(old(floors), 0.0, config.spacing), Transparent, -1), -1)
      ensures (camera, target) == Overview(config)
    {
      params := params.(explode := 0.0, floorSelect := -1, viewMode := Transparent);
      UpdateExplode();
      UpdateViewMode();
      SelectFloor(-1);
    }
  }

  /** After Reset every group is back at its original height and full size, every wall is glass
      at 0.15, and every other transparent mesh is at 0.3, whatever was shown before. */
  lemma ResetRestores(fs: seq<Floor>, spacing: real, k: nat, j: nat)
    requires k < |fs| && j < |fs[k].parts|
    ensures var g := Selected(ViewModed(Exploded(fs, 0.0, spacing), Transparent, -1), -1)[k];
      && |g.parts| == |fs[k].parts|
      && g.y == fs[k].originalY && g.scale == 1.0
      && (FirstWall(fs[k].parts) == Some(j) ==>
            g.parts[j].material == Glass && g.parts[j].opacity == 0.15)
      && (fs[k].parts[j].isMesh && fs[k].parts[j].transparent && fs[k].parts[j].name != WallName ==>
            g.parts[j].opacity == 0.3)
  {
    var e := Exploded(fs, 0.0, spacing)[k];
    assert e.y == fs[k].originalY;
    assert e.parts == fs[k].parts;
  }
}
