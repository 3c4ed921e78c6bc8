/** The drainage builder of the map generator (pages/mapgen-webgl-demo/river.ts):
    triangles and their adjacency from a Delaunay triangulation's flat arrays, the
    downslope neighbour of every triangle, flow along downslope chains, and river tracing. */
module River {
  import opened Common

  /** A triangle of the triangulation. `downslopeTo` and `flow` are absent until
      AssignDownslope and AssignFlow write them: BuildTriangles leaves them as None and 0. */
  datatype Triangle = Triangle(id: nat, vertices: (nat, nat, nat), elevation: real,
                               downslopeTo: Option<nat>, flow: nat)

  /** What d3-delaunay guarantees of `triangles` and `halfedges`: three point indices per
      triangle, one half-edge per corner, -1 on the hull, and paired half-edges point at
      each other. */
  predicate ValidTriangulation(triangles: seq<int>, halfedges: seq<int>, numPoints: nat)
  {
    && |triangles| % 3 == 0
    && |halfedges| == |triangles|
    && (forall i :: 0 <= i < |triangles| ==> 0 <= triangles[i] < numPoints)
    && (forall e :: 0 <= e < |halfedges| ==> -1 <= halfedges[e] < |halfedges|)
    && (forall e :: 0 <= e < |halfedges| && halfedges[e] >= 0 ==> halfedges[halfedges[e]] == e)
  }

  // ---------------------------------------------------------------- buildTriangles

  /** The record `buildTriangles` pushes for the k-th triple of `triangles`. */
  function TriangleAt(triangles: seq<int>, elevations: seq<real>, k: nat): Triangle
    requires 3 * k + 2 < |triangles|
    requires forall i :: 0 <= i < |triangles| ==> 0 <= triangles[i] < |elevations|
  {
    var a, b, c := triangles[3 * k], triangles[3 * k + 1], triangles[3 * k + 2];
    Triangle(k, (a, b, c), (elevations[a] + elevations[b] + elevations[c]) / 3.0, None, 0)
  }

  method BuildTriangles(triangles: seq<int>, elevations: seq<real>) returns (tris: seq<Triangle>)
    requires |triangles| % 3 == 0
    requires forall i :: 0 <= i < |triangles| ==> 0 <= triangles[i] < |elevations|
    ensures |tris| * 3 == |triangles|
    ensures forall k :: 0 <= k < |tris| ==>
      && tris[k].id == k
      && tris[k].vertices == (triangles[3 * k], triangles[3 * k + 1], triangles[3 * k + 2])
      && tris[k].elevation == (elevations[triangles[3 * k]] + elevations[triangles[3 * k + 1]]
                               + elevations[triangles[3 * k + 2]]) / 3.0
      && tris[k].downslopeTo == None && tris[k].flow == 0
  {
    tris := [];
    var i := 0;
    while i < |triangles|
      invariant 0 <= i <= |triangles| && i % 3 == 0
      invariant |tris| * 3 == i
      invariant forall k :: 0 <= k < |tris| ==> tris[k] == TriangleAt(triangles, elevations, k)
    {
      var a, b, c := triangles[i], triangles[i + 1], triangles[i + 2];
      var elevation := (elevations[a] + elevations[b] + elevations[c]) / 3.0;
      tris := tris + [Triangle(i / 3, (a, b, c), elevation, None, 0)];
      i := i + 3;
    }
  }

  /** A triangle's elevation lies between the lowest and the highest of its corners: it is at
      least one corner's elevation and at most one corner's. */
  lemma MeanElevationBounds(triangles: seq<int>, elevations: seq<real>, k: nat)
    requires 3 * k + 2 < |triangles|
    requires forall i :: 0 <= i < |triangles| ==> 0 <= triangles[i] < |elevations|
    ensures var t := TriangleAt(triangles, elevations, k);
      var ea, eb, ec := elevations[t.vertices.0], elevations[t.vertices.1], elevations[t.vertices.2];
      && (t.elevation >= ea || t.elevation >= eb || t.elevation >= ec)
      && (t.elevation <= ea || t.elevation <= eb || t.elevation <= ec)
  {
  }

  // ---------------------------------------------------------- computeTriangleAdjacency

  /** The neighbour a half-edge contributes: `floor(twin / 3)` for a paired half-edge,
      nothing for a hull edge. */
  function TwinNeighbor(twin: int): (ns: seq<nat>)
    ensures |ns| <= 1
  {
    if twin >= 0 then [twin / 3] else []
  }

  /** Neighbours contributed by the first `e` half-edges of triangle `t`, in half-edge order. */
  function HalfEdgeNeighbors(halfedges: seq<int>, t: nat, e: nat): (ns: seq<nat>)
    requires e <= 3 && 3 * t + 3 <= |halfedges|
    ensures |ns| <= e
  {
    if e == 0 then [] else HalfEdgeNeighbors(halfedges, t, e - 1) + TwinNeighbor(halfedges[3 * t + e - 1])
  }

  /** The adjacency list of triangle `t`. */
  function Neighbors(halfedges: seq<int>, t: nat): seq<nat>
    requires 3 * t + 3 <= |halfedges|
  {
    HalfEdgeNeighbors(halfedges, t, 3)
  }

  method ComputeTriangleAdjacency(triangles: seq<int>, halfedges: seq<int>)
    returns (adjacency: map<nat, seq<nat>>)
    requires |triangles| % 3 == 0 && |halfedges| == |triangles|
    ensures forall id: nat :: id in adjacency <==> 3 * id < |triangles|
    ensures forall id :: id in adjacency ==> adjacency[id] == Neighbors(halfedges, id)
  {
    adjacency := map[];
    var t := 0;
    while t < |triangles|
      invariant 0 <= t <= |triangles| && t % 3 == 0
      invariant forall id: nat :: id in adjacency <==> 3 * id < t
      invariant forall id :: id in adjacency ==> adjacency[id] == Neighbors(halfedges, id)
    {
      var triId := t / 3;
      // the list set for triId, which the inner loop pushes onto through `get`
      var list := PushNeighbors(halfedges, t);
      adjacency := adjacency[triId := list];
      t := t + 3;
    }
  }

  /** The inner loop of `computeTriangleAdjacency` over the half-edges of the triangle
      whose first half-edge is `t`. */
  method PushNeighbors(halfedges: seq<int>, t: nat) returns (list: seq<nat>)
    requires t % 3 == 0 && t + 3 <= |halfedges|
    ensures list == Neighbors(halfedges, t / 3)
  {
    list := [];
    for e := 0 to 3
      invariant list == HalfEdgeNeighbors(halfedges, t / 3, e)
    {
      var ei := t + e;
      var twin := halfedges[ei];
      if twin >= 0 {
        var neighborId := twin / 3;
        list := list + [neighborId];
      }
    }
  }

  /** Half-edge `i` of triangle `a` is paired with a half-edge of triangle `b`. */
  predicate LinksTo(halfedges: seq<int>, a: nat, i: nat, b: nat)
    requires i < 3 && 3 * a + 3 <= |halfedges|
  {
    halfedges[3 * a + i] >= 0 && halfedges[3 * a + i] / 3 == b
  }

  /** Membership in an adjacency list: some half-edge of `a` is paired with one of `b`. */
  lemma {:induction false} NeighborsMembership(halfedges: seq<int>, a: nat, b: nat, e: nat)
    requires e <= 3 && 3 * a + 3 <= |halfedges|
    ensures b in HalfEdgeNeighbors(halfedges, a, e) <==> exists i :: 0 <= i < e && LinksTo(halfedges, a, i, b)
  {
    if e > 0 {
      NeighborsMembership(halfedges, a, b, e - 1);
      var last := halfedges[3 * a + e - 1];
      assert HalfEdgeNeighbors(halfedges, a, e) == HalfEdgeNeighbors(halfedges, a, e - 1) + TwinNeighbor(last);
      if b in HalfEdgeNeighbors(halfedges, a, e) && b !in HalfEdgeNeighbors(halfedges, a, e - 1) {
        assert LinksTo(halfedges, a, e - 1, b);
      }
      if exists i :: 0 <= i < e && LinksTo(halfedges, a, i, b) {
        var i :| 0 <= i < e && LinksTo(halfedges, a, i, b);
        if i == e - 1 {
          assert b in TwinNeighbor(last);
        }
      }
    }
  }

  /** Every adjacency list has at most three entries, each the id of a triangle. */
  lemma NeighborsInRange(triangles: seq<int>, halfedges: seq<int>, numPoints: nat, a: nat)
    requires ValidTriangulation(triangles, halfedges, numPoints) && 3 * a < |triangles|
    ensures |Neighbors(halfedges, a)| <= 3
    ensures forall j :: 0 <= j < |Neighbors(halfedges, a)| ==> 3 * Neighbors(halfedges, a)[j] < |triangles|
  {
    forall j | 0 <= j < |Neighbors(halfedges, a)|
      ensures 3 * Neighbors(halfedges, a)[j] < |triangles|
    {
      var b := Neighbors(halfedges, a)[j];
      NeighborsMembership(halfedges, a, b, 3);
      var i :| 0 <= i < 3 && LinksTo(halfedges, a, i, b);
    }
  }

  /** A paired half-edge of `a` landing in `b` has its twin in `b` landing back in `a`. */
  lemma TwinLinksBack(triangles: seq<int>, halfedges: seq<int>, numPoints: nat, a: nat, b: nat, i: nat)
    requires ValidTriangulation(triangles, halfedges, numPoints)
    requires 3 * a < |triangles| && 3 * b < |triangles| && i < 3
    requires LinksTo(halfedges, a, i, b)
    ensures LinksTo(halfedges, b, halfedges[3 * a + i] % 3, a)
  {
    var twin := halfedges[3 * a + i];
    assert twin == 3 * b + twin % 3;
    assert halfedges[twin] == 3 * a + i;
  }

  /** Adjacency is symmetric when the half-edge pairing is an involution. */
  lemma AdjacencySymmetric(triangles: seq<int>, halfedges: seq<int>, numPoints: nat, a: nat, b: nat)
    requires ValidTriangulation(triangles, halfedges, numPoints)
    requires 3 * a < |triangles| && 3 * b < |triangles|
    ensures b in Neighbors(halfedges, a) <==> a in Neighbors(halfedges, b)
  {
    NeighborsMembership(halfedges, a, b, 3);
    NeighborsMembership(halfedges, b, a, 3);
    if b in Neighbors(halfedges, a) {
      var i :| 0 <= i < 3 && LinksTo(halfedges, a, i, b);
      TwinLinksBack(triangles, halfedges, numPoints, a, b, i);
    }
    if a in Neighbors(halfedges, b) {
      var i :| 0 <= i < 3 && LinksTo(halfedges, b, i, a);
      TwinLinksBack(triangles, halfedges, numPoints, b, a, i);
    }
  }

  // --------------------------------------------------------------- assignDownslope

  /** The neighbour selected so far and the running minimum elevation. */
  datatype Lowest = Lowest(neighbor: Option<nat>, elevation: real)

  predicate AllBelow(nbrs: seq<nat>, n: nat)
  {
    forall j :: 0 <= j < |nbrs| ==> nbrs[j] < n
  }

  /** The scan of `assignDownslope` over `nbrs`, starting from the triangle's own elevation:
      a neighbour replaces the current choice only when it is strictly lower. */
  function ScanLowest(elevs: seq<real>, nbrs: seq<nat>, own: real): Lowest
    requires AllBelow(nbrs, |elevs|)
  {
    if nbrs == [] then Lowest(None, own)
    else
      var prev := ScanLowest(elevs, nbrs[..|nbrs| - 1], own);
      var n := nbrs[|nbrs| - 1];
      if elevs[n] < prev.elevation then Lowest(Some(n), elevs[n]) else prev
  }

  function LowestNeighbor(elevs: seq<real>, nbrs: seq<nat>, own: real): Option<nat>
    requires AllBelow(nbrs, |elevs|)
  {
    ScanLowest(elevs, nbrs, own).neighbor
  }

  /** The choice is None exactly when no neighbour is strictly lower than the triangle;
      otherwise it is the first neighbour, in adjacency order, of least elevation, and that
      elevation is strictly below the triangle's. */
  lemma {:induction false} ScanLowestSpec(elevs: seq<real>, nbrs: seq<nat>, own: real)
    requires AllBelow(nbrs, |elevs|)
    ensures var r := ScanLowest(elevs, nbrs, own);
      && (r.neighbor.None? ==> r.elevation == own && forall j :: 0 <= j < |nbrs| ==> own <= elevs[nbrs[j]])
      && (r.neighbor.Some? ==>
            exists k :: 0 <= k < |nbrs| && nbrs[k] == r.neighbor.value
              && r.elevation == elevs[nbrs[k]] < own
              && (forall j :: 0 <= j < |nbrs| ==> r.elevation <= elevs[nbrs[j]])
              && (forall j :: 0 <= j < k ==> r.elevation < elevs[nbrs[j]]))
    decreases |nbrs|
  {
    if nbrs != [] {
      var init := nbrs[..|nbrs| - 1];
      ScanLowestSpec(elevs, init, own);
      var prev := ScanLowest(elevs, init, own);
      var n := nbrs[|nbrs| - 1];
      if elevs[n] < prev.elevation {
        var k := |nbrs| - 1;
        assert forall j :: 0 <= j < k ==> nbrs[j] == init[j];
        if prev.neighbor.Some? {
          var k0 :| 0 <= k0 < |init| && init[k0] == prev.neighbor.value
            && prev.elevation == elevs[init[k0]] < own
            && (forall j :: 0 <= j < |init| ==> prev.elevation <= elevs[init[j]]);
        }
        assert nbrs[k] == n && elevs[nbrs[k]] < own;
      } else {
        assert forall j :: 0 <= j < |init| ==> nbrs[j] == init[j];
        if prev.neighbor.Some? {
          var k0 :| 0 <= k0 < |init| && init[k0] == prev.neighbor.value
            && prev.elevation == elevs[init[k0]] < own
            && (forall j :: 0 <= j < |init| ==> prev.elevation <= elevs[init[j]])
            && (forall j :: 0 <= j < k0 ==> prev.elevation < elevs[init[j]]);
          assert nbrs[k0] == prev.neighbor.value;
        }
      }
    }
  }

  /** The downslope neighbour is None iff no neighbour is strictly lower. Otherwise it is a
      neighbour strictly below the triangle and no higher than any other neighbour, and every
      neighbour listed before it is strictly higher (ties go to the first). */
  lemma LowestNeighborSpec(elevs: seq<real>, nbrs: seq<nat>, own: real)
    requires AllBelow(nbrs, |elevs|)
    ensures LowestNeighbor(elevs, nbrs, own).None? <==>
      forall j :: 0 <= j < |nbrs| ==> own <= elevs[nbrs[j]]
    ensures LowestNeighbor(elevs, nbrs, own).Some? ==>
      var d := LowestNeighbor(elevs, nbrs, own).value;
      && d in nbrs && elevs[d] < own
      && (forall j :: 0 <= j < |nbrs| ==> elevs[d] <= elevs[nbrs[j]])
      && exists k :: 0 <= k < |nbrs| && nbrs[k] == d && forall j :: 0 <= j < k ==> elevs[d] < elevs[nbrs[j]]
  {
    ScanLowestSpec(elevs, nbrs, own);
  }

  function Elevations(s: seq<Triangle>): (es: seq<real>)
    ensures |es| == |s| && forall i :: 0 <= i < |s| ==> es[i] == s[i].elevation
  {
    seq(|s|, i requires 0 <= i < |s| => s[i].elevation)
  }

  /** `adjacency.get(tri.id) || []`. */
  function NeighborList(adjacency: map<nat, seq<nat>>, id: nat): seq<nat>
  {
    if id in adjacency then adjacency[id] else []
  }

  predicate AdjacencyInRange(adjacency: map<nat, seq<nat>>, n: nat)
  {
    forall id :: id in adjacency ==> AllBelow(adjacency[id], n)
  }

  /** The triangle list once `assignDownslope` has run over it. */
  function WithDownslope(s: seq<Triangle>, adjacency: map<nat, seq<nat>>): (r: seq<Triangle>)
    requires AdjacencyInRange(adjacency, |s|)
    ensures |r| == |s|
  {
    seq(|s|, i requires 0 <= i < |s| =>
      s[i].(downslopeTo := LowestNeighbor(Elevations(s), NeighborList(adjacency, s[i].id), s[i].elevation)))
  }

  method AssignDownslope(tris: array<Triangle>, adjacency: map<nat, seq<nat>>)
    requires AdjacencyInRange(adjacency, tris.Length)
    modifies tris
    ensures tris[..] == WithDownslope(old(tris[..]), adjacency)
  {
    ghost var s0 := tris[..];
    ghost var elevs := Elevations(s0);
    for i := 0 to tris.Length
      invariant forall k :: 0 <= k < i ==> tris[k] == WithDownslope(s0, adjacency)[k]
      invariant forall k :: i <= k < tris.Length ==> tris[k] == s0[k]
    {
      var tri := tris[i];
      var neighbors := if tri.id in adjacency then adjacency[tri.id] else [];
      var minNeighbor: Option<nat> := None;
      var minElev := tri.elevation;
      for j := 0 to |neighbors|
        invariant forall k :: 0 <= k < tris.Length ==> tris[k].elevation == elevs[k]
        invariant ScanLowest(elevs, neighbors[..j], tri.elevation) == Lowest(minNeighbor, minElev)
      {
        assert neighbors[..j + 1][..j] == neighbors[..j];
        var nId := neighbors[j];
        var n := tris[nId];
        if n.elevation < minElev {
          minElev := n.elevation;
          minNeighbor := Some(nId);
        }
      }
      assert neighbors[..|neighbors|] == neighbors;
      tris[i] := tri.(downslopeTo := minNeighbor);
    }
  }

  /** Every downslope link points at a triangle strictly lower than its source. */
  predicate Descending(s: seq<Triangle>)
  {
    forall i :: 0 <= i < |s| && s[i].downslopeTo.Some? ==>
      s[i].downslopeTo.value < |s| && s[s[i].downslopeTo.value].elevation < s[i].elevation
  }

  /** Downslope assignment produces strictly descending links. */
  lemma DownslopeDescends(s: seq<Triangle>, adjacency: map<nat, seq<nat>>)
    requires AdjacencyInRange(adjacency, |s|)
    ensures Descending(WithDownslope(s, adjacency))
  {
    var r := WithDownslope(s, adjacency);
    forall i | 0 <= i < |r| && r[i].downslopeTo.Some?
      ensures r[i].downslopeTo.value < |r| && r[r[i].downslopeTo.value].elevation < r[i].elevation
    {
      LowestNeighborSpec(Elevations(s), NeighborList(adjacency, s[i].id), s[i].elevation);
    }
  }

  // ------------------------------------------------------------------- assignFlow

  /** The triangles strictly lower than `t`: a measure that shrinks along a descent. */
  function Below(s: seq<Triangle>, t: nat): set<nat>
    requires t < |s|
  {
    set j: nat | j < |s| && s[j].elevation < s[t].elevation
  }

  lemma BelowShrinks(s: seq<Triangle>, t: nat, d: nat)
    requires t < |s| && d < |s| && s[d].elevation < s[t].elevation
    ensures Below(s, d) + {d} <= Below(s, t) && d !in Below(s, d)
  {
  }

  /** The downslope chain from `t`: t, then its downslope target, and so on to a triangle
      with no lower neighbour. */
  function DownstreamPath(s: seq<Triangle>, t: nat): (p: seq<nat>)
    requires Descending(s) && t < |s|
    ensures |p| >= 1 && p[0] == t
    decreases Below(s, t)
  {
    match s[t].downslopeTo
    case None => [t]
    case Some(d) =>
      BelowShrinks(s, t, d);
      [t] + DownstreamPath(s, d)
  }

  /** A downslope chain follows the links, descends strictly, ends at a local minimum, never
      repeats a triangle, and is no longer than the number of triangles not above its start. */
  lemma {:induction false} DownstreamPathShape(s: seq<Triangle>, t: nat)
    requires Descending(s) && t < |s|
    ensures var p := DownstreamPath(s, t);
      && (forall k :: 0 <= k < |p| ==> p[k] < |s|)
      && (forall k :: 0 <= k < |p| - 1 ==> s[p[k]].downslopeTo == Some(p[k + 1]))
      && s[p[|p| - 1]].downslopeTo == None
      && (forall i, j :: 0 <= i < j < |p| ==> s[p[j]].elevation < s[p[i]].elevation)
      && (forall i, j :: 0 <= i < j < |p| ==> p[i] != p[j])
      && |p| <= |Below(s, t)| + 1
    decreases Below(s, t)
  {
    var p := DownstreamPath(s, t);
    match s[t].downslopeTo
    case None =>
    case Some(d) =>
      BelowShrinks(s, t, d);
      DownstreamPathShape(s, d);
      var q := DownstreamPath(s, d);
      assert p == [t] + q;
      assert forall j :: 0 < j < |p| ==> p[j] == q[j - 1];
      assert forall j :: 0 < j < |p| ==> s[p[j]].elevation <= s[d].elevation by {
        forall j | 0 < j < |p| ensures s[p[j]].elevation <= s[d].elevation {
          if j > 1 {
            assert s[q[j - 1]].elevation < s[q[0]].elevation;
          }
        }
      }
      assert |Below(s, d) + {d}| == |Below(s, d)| + 1;
      assert |Below(s, d) + {d}| <= |Below(s, t)| by {
        SubsetCard(Below(s, d) + {d}, Below(s, t));
      }
  }

  lemma SubsetCard(a: set<nat>, b: set<nat>)
    requires a <= b
    ensures |a| <= |b|
  {
    assert b == a + (b - a);
  }

  /** A chain visits at most every triangle once: at most |s| steps. */
  lemma DownstreamPathBound(s: seq<Triangle>, t: nat)
    requires Descending(s) && t < |s|
    ensures |DownstreamPath(s, t)| <= |s|
  {
    DownstreamPathShape(s, t);
    assert Below(s, t) + {t} <= Range(|s|);
    SubsetCard(Below(s, t) + {t}, Range(|s|));
  }

  /** The ids 0 .. n-1. */
  function Range(n: nat): (r: set<nat>)
    ensures forall i: nat :: i in r <==> i < n
    ensures |r| == n
  {
    if n == 0 then {} else Range(n - 1) + {n - 1}
  }

  /** Two triangle lists that differ at most in their `flow` fields. */
  predicate SameButFlow(s: seq<Triangle>, s0: seq<Triangle>)
  {
    |s| == |s0| && forall i :: 0 <= i < |s| ==> s[i] == s0[i].(flow := s[i].flow)
  }

  function Unvisited(n: nat, visited: set<nat>): set<nat>
  {
    set i: nat | i < n && i !in visited
  }

  /** The closure `dfs` of `assignFlow`; `visited` is its captured Set, passed in and out.
      Visited triangles are finished, except those still on the call stack, which all lie
      strictly above `id`. */
  method Dfs(tris: array<Triangle>, id: nat, visited: set<nat>, ghost s0: seq<Triangle>)
    returns (flow: nat, visitedOut: set<nat>)
    requires id < tris.Length && Descending(s0) && SameButFlow(tris[..], s0)
    requires forall v :: v in visited && v < tris.Length ==>
      tris[v].flow == |DownstreamPath(s0, v)| || s0[id].elevation < s0[v].elevation
    requires forall v :: 0 <= v < tris.Length && v !in visited ==> tris[v].flow == 1
    modifies tris
    ensures SameButFlow(tris[..], s0)
    ensures visited <= visitedOut && id in visitedOut
    ensures flow == tris[id].flow == |DownstreamPath(s0, id)|
    ensures forall v :: 0 <= v < tris.Length && v in visitedOut - visited ==>
      tris[v].flow == |DownstreamPath(s0, v)|
    ensures forall v :: 0 <= v < tris.Length && v !in visitedOut - visited ==> tris[v] == old(tris[v])
    decreases Unvisited(tris.Length, visited)
  {
    if id in visited {
      return tris[id].flow, visited;
    }
    visitedOut := visited + {id};
    var to := tris[id].downslopeTo;
    if to.Some? {
      assert Unvisited(tris.Length, visitedOut) < Unvisited(tris.Length, visited) by {
        assert id in Unvisited(tris.Length, visited);
      }
      var before := tris[id].flow;
      var down;
      down, visitedOut := Dfs(tris, to.value, visitedOut, s0);
      tris[id] := tris[id].(flow := before + down);
    }
    flow := tris[id].flow;
  }

  /** The triangle list once `assignFlow` has run: every flow is the length of the
      triangle's downslope chain. */
  function WithFlow(s: seq<Triangle>): (r: seq<Triangle>)
    requires Descending(s)
    ensures |r| == |s|
  {
    seq(|s|, i requires 0 <= i < |s| => s[i].(flow := |DownstreamPath(s, i)|))
  }

  predicate IdsAreIndices(s: seq<Triangle>)
  {
    forall i :: 0 <= i < |s| ==> s[i].id == i
  }

  method AssignFlow(tris: array<Triangle>)
    requires Descending(tris[..]) && IdsAreIndices(tris[..])
    modifies tris
    ensures tris[..] == WithFlow(old(tris[..]))
  {
    ghost var s0 := tris[..];
    for i := 0 to tris.Length
      invariant SameButFlow(tris[..], s0)
      invariant forall k :: 0 <= k < i ==> tris[k].flow == 1
    {
      tris[i] := tris[i].(flow := 1);
    }
    var visited: set<nat> := {};
    for i := 0 to tris.Length
      invariant SameButFlow(tris[..], s0)
      invariant forall k :: 0 <= k < i ==> k in visited
      invariant forall v :: v in visited && v < tris.Length ==> tris[v].flow == |DownstreamPath(s0, v)|
      invariant forall v :: 0 <= v < tris.Length && v !in visited ==> tris[v].flow == 1
    {
      var _, visitedOut := Dfs(tris, tris[i].id, visited, s0);
      visited := visitedOut;
    }
  }

  /** Flow as the source leaves it: 1 at a local minimum, otherwise one more than the flow of
      the downslope target. */
  predicate FlowConsistent(s: seq<Triangle>)
  {
    forall t :: 0 <= t < |s| ==>
      match s[t].downslopeTo
      case None => s[t].flow == 1
      case Some(d) => d < |s| && s[t].flow == 1 + s[d].flow
  }

  /** After assignFlow every flow is at least 1 and obeys the one-step recurrence. */
  lemma FlowRecurrence(s: seq<Triangle>)
    requires Descending(s)
    ensures FlowConsistent(WithFlow(s)) && Descending(WithFlow(s))
    ensures forall t :: 0 <= t < |s| ==> 1 <= WithFlow(s)[t].flow <= |s|
  {
    var r := WithFlow(s);
    forall t | 0 <= t < |s| ensures 1 <= r[t].flow <= |s| {
      DownstreamPathBound(s, t);
    }
  }

  // ------------------------------------------------------------------- traceRivers

  /** The path `traceRivers` walks from `t`: keep following the downslope link while the
      next triangle's flow reaches `minFlow`. */
  function RiverFrom(s: seq<Triangle>, t: nat, minFlow: int): (p: seq<nat>)
    requires FlowConsistent(s) && t < |s|
    ensures |p| >= 1 && p[0] == t
    decreases s[t].flow
  {
    match s[t].downslopeTo
    case None => [t]
    case Some(d) =>
      if s[t].flow >= minFlow && s[d].flow >= minFlow then [t] + RiverFrom(s, d, minFlow) else [t]
  }

  /** The rivers `traceRivers` emits from the first `k` triangles, in order. */
  function Rivers(s: seq<Triangle>, minFlow: int, k: nat): (rs: seq<seq<nat>>)
    requires FlowConsistent(s) && k <= |s|
    ensures forall i :: 0 <= i < |rs| ==> |rs[i]| > 1
  {
    if k == 0 then []
    else
      var earlier := Rivers(s, minFlow, k - 1);
      if s[k - 1].flow >= minFlow && |RiverFrom(s, k - 1, minFlow)| > 1
      then earlier + [RiverFrom(s, k - 1, minFlow)]
      else earlier
  }

  lemma RiverStep(s: seq<Triangle>, t: nat, minFlow: int)
    requires FlowConsistent(s) && t < |s| && s[t].downslopeTo.Some?
    requires s[t].flow >= minFlow && s[s[t].downslopeTo.value].flow >= minFlow
    ensures RiverFrom(s, t, minFlow) == [t] + RiverFrom(s, s[t].downslopeTo.value, minFlow)
  {
  }

  lemma RiverStop(s: seq<Triangle>, t: nat, minFlow: int)
    requires FlowConsistent(s) && t < |s|
    requires s[t].downslopeTo.None? || s[s[t].downslopeTo.value].flow < minFlow
    ensures RiverFrom(s, t, minFlow) == [t]
  {
  }

  /** The inner `while` of `traceRivers`: the path walked from triangle `i`, which the
      caller has already found to carry at least `minFlow`. */
  method WalkRiver(tris: array<Triangle>, i: nat, minFlow: int) returns (path: seq<nat>)
    requires FlowConsistent(tris[..]) && IdsAreIndices(tris[..])
    requires i < tris.Length && tris[i].flow >= minFlow
    ensures path == RiverFrom(tris[..], i, minFlow)
  {
    ghost var s := tris[..];
    var current := tris[i];
    path := [current.id];
    ghost var last: nat := i;
    while current.downslopeTo.Some? && current.flow >= minFlow
      invariant last < |s| && current == s[last] && current.flow >= minFlow
      invariant path + RiverFrom(s, last, minFlow)[1..] == RiverFrom(s, i, minFlow)
      decreases current.flow
    {
      var next := tris[current.downslopeTo.value];
      if next.flow < minFlow {
        break;
      }
      RiverStep(s, last, minFlow);
      ghost var rest := RiverFrom(s, next.id, minFlow);
      assert RiverFrom(s, last, minFlow)[1..] == rest;
      assert rest == [next.id] + rest[1..];
      path := path + [next.id];
      current := next;
      last := next.id;
    }
    RiverStop(s, last, minFlow);
  }

  method TraceRivers(tris: array<Triangle>, minFlow: int) returns (rivers: seq<seq<nat>>)
    requires FlowConsistent(tris[..]) && IdsAreIndices(tris[..])
    ensures rivers == Rivers(tris[..], minFlow, tris.Length)
  {
    ghost var s := tris[..];
    rivers := [];
    for i := 0 to tris.Length
      invariant rivers == Rivers(s, minFlow, i)
    {
      var tri := tris[i];
      if tri.flow < minFlow {
        assert Rivers(s, minFlow, i + 1) == Rivers(s, minFlow, i);
        continue;
      }
      var path := WalkRiver(tris, i, minFlow);
      if |path| > 1 {
        rivers := rivers + [path];
      }
    }
  }

  /** A traced path follows downslope links, loses exactly one unit of flow per step, stays at
      or above `minFlow` when it starts there, and has at most as many triangles as its start's
      flow. */
  lemma {:induction false} RiverFromShape(s: seq<Triangle>, t: nat, minFlow: int)
    requires FlowConsistent(s) && t < |s|
    ensures var p := RiverFrom(s, t, minFlow);
      && (forall k :: 0 <= k < |p| ==> p[k] < |s|)
      && (forall k :: 0 <= k < |p| - 1 ==> s[p[k]].downslopeTo == Some(p[k + 1]))
      && (forall k :: 0 <= k < |p| - 1 ==> s[p[k]].flow == s[p[k + 1]].flow + 1)
      && (s[t].flow >= minFlow ==> forall k :: 0 <= k < |p| ==> s[p[k]].flow >= minFlow)
      && |p| <= s[t].flow
    decreases s[t].flow
  {
    var p := RiverFrom(s, t, minFlow);
    match s[t].downslopeTo
    case None =>
    case Some(d) =>
      if s[t].flow >= minFlow && s[d].flow >= minFlow {
        RiverFromShape(s, d, minFlow);
        var q := RiverFrom(s, d, minFlow);
        assert p == [t] + q;
        assert forall k :: 0 < k < |p| ==> p[k] == q[k - 1];
      }
  }

  /** The rivers from the first `k` triangles are exactly the traced paths of length two or
      more that start at a triangle of flow at least `minFlow`. */
  lemma {:induction false} RiversMembership(s: seq<Triangle>, minFlow: int, k: nat, r: seq<nat>)
    requires FlowConsistent(s) && k <= |s|
    ensures r in Rivers(s, minFlow, k) <==>
      exists t :: 0 <= t < k && s[t].flow >= minFlow && |RiverFrom(s, t, minFlow)| > 1 && r == RiverFrom(s, t, minFlow)
  {
    if k > 0 {
      RiversMembership(s, minFlow, k - 1, r);
      if r in Rivers(s, minFlow, k) && r !in Rivers(s, minFlow, k - 1) {
        assert r == RiverFrom(s, k - 1, minFlow);
      }
      if exists t :: 0 <= t < k && s[t].flow >= minFlow && |RiverFrom(s, t, minFlow)| > 1 && r == RiverFrom(s, t, minFlow) {
        var t :| 0 <= t < k && s[t].flow >= minFlow && |RiverFrom(s, t, minFlow)| > 1 && r == RiverFrom(s, t, minFlow);
        if t == k - 1 {
          assert Rivers(s, minFlow, k) == Rivers(s, minFlow, k - 1) + [r];
        }
      }
    }
  }

  /** Rivers are emitted in triangle order, one per starting triangle at most: their first
      triangles strictly increase. */
  lemma {:induction false} RiversAscending(s: seq<Triangle>, minFlow: int, k: nat)
    requires FlowConsistent(s) && k <= |s|
    ensures forall i :: 0 <= i < |Rivers(s, minFlow, k)| ==> Rivers(s, minFlow, k)[i][0] < k
    ensures forall i, j :: 0 <= i < j < |Rivers(s, minFlow, k)| ==>
      Rivers(s, minFlow, k)[i][0] < Rivers(s, minFlow, k)[j][0]
  {
    if k > 0 {
      RiversAscending(s, minFlow, k - 1);
      var rs := Rivers(s, minFlow, k);
      var earlier := Rivers(s, minFlow, k - 1);
      assert forall i :: 0 <= i < |earlier| ==> earlier[i][0] < k - 1;
      if rs != earlier {
        var r := RiverFrom(s, k - 1, minFlow);
        assert rs == earlier + [r];
        assert r[0] == k - 1;
        forall i | 0 <= i < |rs| ensures rs[i][0] < k {
          if i < |earlier| {
            assert rs[i] == earlier[i];
          }
        }
        forall i, j | 0 <= i < j < |rs| ensures rs[i][0] < rs[j][0] {
          assert rs[i] == earlier[i];
          if j < |earlier| {
            assert rs[j] == earlier[j];
          }
        }
      }
    }
  }

  /** Every emitted river has at least two triangles, all of flow at least `minFlow`, each
      flowing into the next with one unit less flow. */
  lemma RiverProperties(s: seq<Triangle>, minFlow: int, r: seq<nat>)
    requires FlowConsistent(s) && r in Rivers(s, minFlow, |s|)
    ensures |r| >= 2
    ensures forall k :: 0 <= k < |r| ==> r[k] < |s| && s[r[k]].flow >= minFlow
    ensures forall k :: 0 <= k < |r| - 1 ==>
      s[r[k]].downslopeTo == Some(r[k + 1]) && s[r[k]].flow == s[r[k + 1]].flow + 1
  {
    RiversMembership(s, minFlow, |s|, r);
    var t :| 0 <= t < |s| && s[t].flow >= minFlow && |RiverFrom(s, t, minFlow)| > 1 && r == RiverFrom(s, t, minFlow);
    RiverFromShape(s, t, minFlow);
  }

  /** The tail of a river of three or more triangles is itself emitted as a river: rivers
      overlap rather than being cut at confluences. */
  lemma RiverSuffixEmitted(s: seq<Triangle>, minFlow: int, r: seq<nat>)
    requires FlowConsistent(s) && r in Rivers(s, minFlow, |s|) && |r| >= 3
    ensures r[1..] in Rivers(s, minFlow, |s|)
  {
    RiversMembership(s, minFlow, |s|, r);
    var t :| 0 <= t < |s| && s[t].flow >= minFlow && |RiverFrom(s, t, minFlow)| > 1 && r == RiverFrom(s, t, minFlow);
    var d := s[t].downslopeTo.value;
    assert r == [t] + RiverFrom(s, d, minFlow);
    RiversMembership(s, minFlow, |s|, r[1..]);
  }

  /** A path whose triangles are listed from high to low. */
  predicate StrictlyDescending(s: seq<Triangle>, r: seq<nat>)
  {
    forall k {:trigger r[k]} :: 0 <= k < |r| - 1 ==>
      r[k] < |s| && r[k + 1] < |s| && s[r[k + 1]].elevation < s[r[k]].elevation
  }

  /** Over descending downslope links, every river runs strictly downhill. */
  lemma RiverDescends(s: seq<Triangle>, minFlow: int, r: seq<nat>)
    requires FlowConsistent(s) && Descending(s) && r in Rivers(s, minFlow, |s|)
    ensures StrictlyDescending(s, r)
  {
    RiverProperties(s, minFlow, r);
  }

  // ---------------------------------------------------------------- generateRivers

  /** The triangle list `buildTriangles` returns. */
  function Built(triangles: seq<int>, elevations: seq<real>): (s: seq<Triangle>)
    requires |triangles| % 3 == 0
    requires forall i :: 0 <= i < |triangles| ==> 0 <= triangles[i] < |elevations|
    ensures |s| * 3 == |triangles| && IdsAreIndices(s)
  {
    seq(|triangles| / 3, k requires 0 <= k < |triangles| / 3 => TriangleAt(triangles, elevations, k))
  }

  /** The map `computeTriangleAdjacency` returns. */
  function Adjacency(triangles: seq<int>, halfedges: seq<int>): map<nat, seq<nat>>
    requires |halfedges| == |triangles|
  {
    map id | id in Range(|triangles| / 3) :: Neighbors(halfedges, id)
  }

  lemma AdjacencyValid(triangles: seq<int>, halfedges: seq<int>, numPoints: nat)
    requires ValidTriangulation(triangles, halfedges, numPoints)
    ensures AdjacencyInRange(Adjacency(triangles, halfedges), |triangles| / 3)
  {
    forall id | id in Adjacency(triangles, halfedges)
      ensures AllBelow(Adjacency(triangles, halfedges)[id], |triangles| / 3)
    {
      NeighborsInRange(triangles, halfedges, numPoints, id);
    }
  }

  /** The triangles after `assignDownslope` and `assignFlow`. */
  function Drained(triangles: seq<int>, halfedges: seq<int>, elevations: seq<real>): (s: seq<Triangle>)
    requires ValidTriangulation(triangles, halfedges, |elevations|)
    ensures |s| * 3 == |triangles| && IdsAreIndices(s) && Descending(s) && FlowConsistent(s)
  {
    var built := Built(triangles, elevations);
    var adjacency := Adjacency(triangles, halfedges);
    AdjacencyValid(triangles, halfedges, |elevations|);
    DownslopeDescends(built, adjacency);
    FlowRecurrence(WithDownslope(built, adjacency));
    WithFlow(WithDownslope(built, adjacency))
  }

  /** `generateRivers`: the rivers traced over the drained triangulation. Each river runs
      through strictly descending triangles. */
  method GenerateRivers(triangles: seq<int>, halfedges: seq<int>, elevations: seq<real>, minFlow: int)
    returns (rivers: seq<seq<nat>>)
    requires ValidTriangulation(triangles, halfedges, |elevations|)
    ensures rivers == Rivers(Drained(triangles, halfedges, elevations), minFlow, |triangles| / 3)
    ensures forall r :: r in rivers ==> |r| >= 2 && StrictlyDescending(Drained(triangles, halfedges, elevations), r)
  {
    var built := BuildTriangles(triangles, elevations);
    assert built == Built(triangles, elevations);
    var adjacency := ComputeTriangleAdjacency(triangles, halfedges);
    assert adjacency == Adjacency(triangles, halfedges);
    AdjacencyValid(triangles, halfedges, |elevations|);
    var tris := new Triangle[|built|](i requires 0 <= i < |built| => built[i]);
    assert tris[..] == built;
    AssignDownslope(tris, adjacency);
    DownslopeDescends(built, adjacency);
    AssignFlow(tris);
    FlowRecurrence(WithDownslope(built, adjacency));
    rivers := TraceRivers(tris, minFlow);
    ghost var s := Drained(triangles, halfedges, elevations);
    forall r | r in rivers ensures |r| >= 2 && StrictlyDescending(s, r) {
      RiverDescends(s, minFlow, r);
    }
  }
}
