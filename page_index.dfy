/** The playground's index page (main.ts): the list of demo pages, the featured and AI filters,
    and the card each shown page gets in the grid. */
module PageIndex {
  import opened Common

  /** A listed page; `tags`, `featured` and `ai` may be absent. */
  datatype PageInfo = PageInfo(name: string, description: string, url: string,
                               tags: Option<seq<string>>, featured: Option<bool>,
                               ai: Option<bool>)

  /** A flag that is present and true; an absent flag is falsy. */
  predicate Truthy(flag: Option<bool>)
  {
    flag == Some(true)
  }

  predicate IsFeatured(p: PageInfo)
  {
    Truthy(p.featured)
  }

  predicate IsAi(p: PageInfo)
  {
    Truthy(p.ai)
  }

  function Page(name: string, description: string, url: string, tags: seq<string>,
                featured: bool): PageInfo
  {
    PageInfo(name, description, url, Some(tags), if featured then Some(true) else None, None)
  }

  /** The fifteen listed pages in display order. */
  const Pages: seq<PageInfo> := [
    Page("Model Animation", "Demonstrates model movement along paths and animation playback.",
         "/pages/1-model-animation/index.html", ["Three.js", "Animation", "GLTF"], true),
    Page("3D Blob", "Organic 3D shape creation using Perlin noise and custom shaders.",
         "/pages/2-3d-blob/index.html", ["Three.js", "Shader", "Noise"], true),
    Page("Earth", "Realistic Earth visualization with texture mapping and lighting.",
         "/pages/3-earth/index.html", ["Three.js", "Globe", "Texture"], false),
    Page("Globe", "Interactive globe displaying geographic coordinates and data points.",
         "/pages/4-globe/index.html", ["Three.js", "Globe", "Data Viz"], false),
    Page("Shaders", "Collection of advanced visual effects ported from ShaderToy.",
         "/pages/5-shaders/index.html", ["Three.js", "Shader", "ShaderToy"], false),
    Page("Procedural Terrain", "Dynamic terrain generation using noise algorithms and heightmaps.",
         "/pages/6-procedural-terrain/index.html", ["Three.js", "Terrain", "Noise"], false),
    Page("Block Terrain", "Voxel-style terrain generated with Fractal Brownian Motion.",
         "/pages/7-block-terrain/index.html", ["Three.js", "Terrain", "Voxel"], true),
    Page("3D Force Layout", "Dynamic 3D force-directed graph for complex relationship visualization.",
         "/pages/8-3d-force-layout/index.html", ["Three.js", "Graph", "Force-Directed"], true),
    Page("Multiple Views", "Simultaneous rendering of different perspectives in a single scene.",
         "/pages/9-multiple-views/index.html", ["Three.js", "Camera", "Viewport"], false),
    Page("Grayscale Shaders", "Procedural grayscale textures including chessboard, noise, and FBM.",
         "/pages/10-grayscale/index.html", ["Three.js", "Shader", "Noise"], false),
    Page("Voronoi Algorithm", "Interactive visualization of Voronoi diagrams and Delaunay triangulation.",
         "/pages/11-voronoi-demo/index.html", ["Canvas", "Algorithm", "Geometry"], false),
    Page("Atmospheric Earth", "Advanced Earth with day/night cycles and atmospheric scattering.",
         "/pages/12-shader-earth/index.html", ["Three.js", "Shader", "Atmosphere"], true),
    Page("GPU Picking", "High-performance object selection using GPU-based color ID mapping.",
         "/pages/13-gpu-picking/index.html", ["Three.js", "Performance", "Interaction"], false),
    Page("Map Generator", "Procedural island maps with elevation, moisture, and river systems.",
         "/pages/14-mapgen-webgl-demo/index.html", ["OGL", "Terrain", "Procedural"], true),
    Page("Building Explode", "Interactive 3D building with layering, explode effects, and floor selection.",
         "/pages/15-building-explode-effect/index.html", ["Three.js", "Building", "Interaction"], true)
  ]

  // -------------------------------------------------------------------- filters

  /** `Array.prototype.filter`. */
  function Filter(ps: seq<PageInfo>, keep: PageInfo -> bool): (r: seq<PageInfo>)
    ensures |r| <= |ps|
    ensures forall i :: 0 <= i < |r| ==> keep(r[i]) && r[i] in ps
  {
    if |ps| == 0 then []
    else (if keep(ps[0]) then [ps[0]] else []) + Filter(ps[1..], keep)
  }

  /** The list `renderPages` shows: the featured filter first, then the AI filter. */
  function FilterPages(ps: seq<PageInfo>, filterFeatured: bool, filterAi: bool): (r: seq<PageInfo>)
    ensures filterFeatured ==> forall i :: 0 <= i < |r| ==> IsFeatured(r[i])
    ensures filterAi ==> forall i :: 0 <= i < |r| ==> IsAi(r[i])
    ensures !filterFeatured && !filterAi ==> r == ps
  {
    var featured := if filterFeatured then Filter(ps, IsFeatured) else ps;
    if filterAi then Filter(featured, IsAi) else featured
  }

  /** `a` is `b` with some entries dropped, the rest in their original order. */
  predicate Subsequence(a: seq<PageInfo>, b: seq<PageInfo>)
    decreases |b|
  {
    if |a| == 0 then true
    else if |b| == 0 then false
    else (a[0] == b[0] && Subsequence(a[1..], b[1..])) || Subsequence(a, b[1..])
  }

  /** Filter on a list with a known first entry. */
  lemma FilterCons(x: PageInfo, rest: seq<PageInfo>, keep: PageInfo -> bool)
    ensures Filter([x] + rest, keep) == (if keep(x) then [x] else []) + Filter(rest, keep)
  {
    assert ([x] + rest)[0] == x && ([x] + rest)[1..] == rest;
  }

  /** Filtering keeps exactly the entries that pass, in order. */
  lemma {:induction false} FilterKeeps(ps: seq<PageInfo>, keep: PageInfo -> bool)
    ensures Subsequence(Filter(ps, keep), ps)
    ensures forall p :: p in Filter(ps, keep) <==> p in ps && keep(p)
  {
    if |ps| > 0 {
      FilterKeeps(ps[1..], keep);
      assert ps == [ps[0]] + ps[1..];
      var rest := Filter(ps[1..], keep);
      if keep(ps[0]) {
        var r := [ps[0]] + rest;
        assert Filter(ps, keep) == r;
        assert r[0] == ps[0] && r[1..] == rest;
        assert Subsequence(r, ps);
      } else {
        assert Filter(ps, keep) == rest;
        assert Subsequence(rest, ps);
      }
    }
  }

  /** Subsequences compose, so two filters in a row still give a subsequence. */
  lemma {:induction false} SubsequenceTransitive(a: seq<PageInfo>, b: seq<PageInfo>, c: seq<PageInfo>)
    requires Subsequence(a, b) && Subsequence(b, c)
    ensures Subsequence(a, c)
    decreases |c|
  {
    if |a| > 0 && |c| > 0 {
      if |b| > 0 && b[0] == c[0] && Subsequence(b[1..], c[1..]) {
        if a[0] == b[0] && Subsequence(a[1..], b[1..]) {
          SubsequenceTransitive(a[1..], b[1..], c[1..]);
        } else {
          SubsequenceTransitive(a, b[1..], c[1..]);
        }
      } else {
        SubsequenceTransitive(a, b, c[1..]);
      }
    }
  }

  /** Filtering twice with the same test changes nothing the second time. */
  lemma {:induction false} FilterIdempotent(ps: seq<PageInfo>, keep: PageInfo -> bool)
    ensures Filter(Filter(ps, keep), keep) == Filter(ps, keep)
  {
    if |ps| > 0 {
      FilterIdempotent(ps[1..], keep);
      var rest := Filter(ps[1..], keep);
      if keep(ps[0]) {
        assert Filter(ps, keep) == [ps[0]] + rest;
        FilterCons(ps[0], rest, keep);
      } else {
        assert Filter(ps, keep) == rest;
      }
    }
  }

  /** Two filters may be applied in either order. */
  lemma {:induction false} FilterCommutes(ps: seq<PageInfo>, f: PageInfo -> bool, g: PageInfo -> bool)
    ensures Filter(Filter(ps, f), g) == Filter(Filter(ps, g), f)
  {
    if |ps| > 0 {
      FilterCommutes(ps[1..], f, g);
      var x := ps[0];
      var fr, gr := Filter(ps[1..], f), Filter(ps[1..], g);
      var lhs := if f(x) then Filter([x] + fr, g) else Filter(fr, g);
      var rhs := if g(x) then Filter([x] + gr, f) else Filter(gr, f);
      assert Filter(ps, f) == (if f(x) then [x] + fr else fr);
      assert Filter(ps, g) == (if g(x) then [x] + gr else gr);
      FilterCons(x, fr, g);
      FilterCons(x, gr, f);
      if f(x) && g(x) {
        assert lhs == [x] + Filter(fr, g) && rhs == [x] + Filter(gr, f);
      } else if f(x) {
        assert lhs == Filter(fr, g) && rhs == Filter(gr, f);
      } else if g(x) {
        assert lhs == Filter(fr, g) && rhs == Filter(gr, f);
      }
    }
  }

  /** What the index shows: a subsequence of the list in its order, only featured pages under
      the featured filter, only AI pages under the AI filter, every page under neither, and the
      same pages whichever flag is applied first; the filters are idempotent. */
  lemma FilterPagesRules(ps: seq<PageInfo>, filterFeatured: bool, filterAi: bool)
    ensures Subsequence(FilterPages(ps, filterFeatured, filterAi), ps)
    ensures forall p :: p in FilterPages(ps, filterFeatured, filterAi) <==>
      p in ps && (filterFeatured ==> IsFeatured(p)) && (filterAi ==> IsAi(p))
    ensures !filterFeatured && !filterAi ==> FilterPages(ps, filterFeatured, filterAi) == ps
    ensures filterFeatured && filterAi ==>
      FilterPages(ps, true, true) == Filter(Filter(ps, IsAi), IsFeatured)
    ensures FilterPages(FilterPages(ps, filterFeatured, filterAi), filterFeatured, filterAi)
      == FilterPages(ps, filterFeatured, filterAi)
  {
    FilterKeeps(ps, IsFeatured);
    var featured := if filterFeatured then Filter(ps, IsFeatured) else ps;
    FilterKeeps(featured, IsAi);
    if !filterFeatured {
      SubsequenceReflexive(ps);
    }
    if filterAi {
      SubsequenceTransitive(Filter(featured, IsAi), featured, ps);
    }
    FilterCommutes(ps, IsFeatured, IsAi);
    FilterIdempotent(ps, IsFeatured);
    FilterIdempotent(ps, IsAi);
    FilterIdempotent(featured, IsAi);
    if filterFeatured && filterAi {
      var both := Filter(featured, IsAi);
      calc {
        Filter(Filter(both, IsFeatured), IsAi);
        { FilterCommutes(both, IsFeatured, IsAi); }
        Filter(Filter(both, IsAi), IsFeatured);
        { FilterIdempotent(featured, IsAi); }
        Filter(both, IsFeatured);
        { FilterCommutes(ps, IsFeatured, IsAi); }
        Filter(Filter(Filter(ps, IsAi), IsFeatured), IsFeatured);
        { FilterIdempotent(Filter(ps, IsAi), IsFeatured); }
        Filter(Filter(ps, IsAi), IsFeatured);
      }
    }
  }

  lemma {:induction false} SubsequenceReflexive(ps: seq<PageInfo>)
    ensures Subsequence(ps, ps)
  {
    if |ps| > 0 {
      SubsequenceReflexive(ps[1..]);
    }
  }

  /** Without a page that sets `ai`, the AI filter shows nothing, with or without the featured
      filter. */
  lemma NoAiShown(ps: seq<PageInfo>, filterFeatured: bool)
    requires forall k :: 0 <= k < |ps| ==> ps[k].ai == None
    ensures FilterPages(ps, filterFeatured, true) == []
  {
    FilterKeeps(ps, IsFeatured);
    var featured := if filterFeatured then Filter(ps, IsFeatured) else ps;
    NoneKept(featured, IsAi);
  }

  /** No listed page sets `ai`, so on the index the AI filter always shows an empty grid. */
  lemma NoAiPages(filterFeatured: bool)
    ensures |Pages| == 15
    ensures FilterPages(Pages, filterFeatured, true) == []
  {
    forall k | 0 <= k < 15
      ensures Pages[k].ai == None
    {
    }
    NoAiShown(Pages, filterFeatured);
  }

  /** When no entry passes, the filter is empty. */
  lemma {:induction false} NoneKept(ps: seq<PageInfo>, keep: PageInfo -> bool)
    requires forall p :: p in ps ==> !keep(p)
    ensures Filter(ps, keep) == []
  {
    if |ps| > 0 {
      assert ps[0] in ps;
      NoneKept(ps[1..], keep);
    }
  }

  // ---------------------------------------------------------------------- cards

  /** `page-card ${featured ? 'featured' : ''}`. */
  function CardClass(p: PageInfo): (c: string)
    ensures |c| >= 10 && c[..10] == "page-card "
    ensures |c| > 10 <==> IsFeatured(p)
  {
    "page-card " + (if IsFeatured(p) then "featured" else "")
  }

  /** The class is `page-card featured` exactly for featured pages; the others keep a trailing
      space. */
  lemma CardClassRule(p: PageInfo)
    ensures CardClass(p) == "page-card featured" <==> IsFeatured(p)
    ensures !IsFeatured(p) ==> CardClass(p) == "page-card "
  {
    if !IsFeatured(p) {
      assert |CardClass(p)| == 10;
    }
  }

  /** One tag chip; the first one also carries `tech-tag`. */
  function TagSpan(tag: string, first: bool): string
  {
    "<span class=\"tag " + (if first then "tech-tag" else "") + "\">" + tag + "</span>"
  }

  /** `.join('')`. */
  function Concat(parts: seq<string>): string
  {
    if |parts| == 0 then "" else parts[0] + Concat(parts[1..])
  }

  /** The chips of `tagsHtml`, before joining. */
  function TagSpans(tags: seq<string>): seq<string>
  {
    seq(|tags|, i requires 0 <= i < |tags| => TagSpan(tags[i], i == 0))
  }

  /** `tagsHtml`: the joined chips, or '' without tags. */
  function TagsHtml(tags: Option<seq<string>>): (html: string)
    ensures tags.None? || tags.value == [] ==> html == ""
    ensures tags.Some? && tags.value != [] ==> |html| > 0
  {
    match tags
    case None => ""
    case Some(ts) => Concat(TagSpans(ts))
  }

  /** One chip per tag, in order, only the first marked `tech-tag`; the joined string is the
      first chip followed by the plain chips of the remaining tags, and '' without tags. */
  lemma TagsHtmlShape(tags: Option<seq<string>>)
    ensures tags.Some? ==> |TagSpans(tags.value)| == |tags.value|
    ensures tags.Some? ==> forall i :: 0 <= i < |tags.value| ==>
      TagSpans(tags.value)[i] == TagSpan(tags.value[i], i == 0)
    ensures (tags.None? || tags.value == []) ==> TagsHtml(tags) == ""
    ensures tags.Some? && |tags.value| > 0 ==>
      TagsHtml(tags) == TagSpan(tags.value[0], true)
        + Concat(seq(|tags.value| - 1, i requires 0 <= i < |tags.value| - 1 => TagSpan(tags.value[i + 1], false)))
  {
    if tags.Some? && |tags.value| > 0 {
      var ts := tags.value;
      assert TagSpans(ts)[1..] ==
        seq(|ts| - 1, i requires 0 <= i < |ts| - 1 => TagSpan(ts[i + 1], false));
    }
  }

  /** The marked chip differs from a plain one, so the first tag is told apart by its class. */
  lemma TagSpanMarks(tag: string)
    ensures TagSpan(tag, true) != TagSpan(tag, false)
    ensures |TagSpan(tag, true)| == |TagSpan(tag, false)| + 8
  {
  }

  function FeaturedBadge(p: PageInfo): string
  {
    if IsFeatured(p) then "<span class=\"featured-badge\">Featured</span>" else ""
  }

  function AiBadge(p: PageInfo): string
  {
    if IsAi(p) then "<span class=\"ai-badge\">AI</span>" else ""
  }

  /** A badge is shown exactly when its flag is set. */
  lemma BadgeRules(p: PageInfo)
    ensures FeaturedBadge(p) != "" <==> IsFeatured(p)
    ensures AiBadge(p) != "" <==> IsAi(p)
  {
  }

  /** The anchor `createPageCard` builds: its class, link, and the values filled into the card
      template. */
  datatype Card = Card(className: string, href: string, title: string, aiBadge: string,
                       featuredBadge: string, description: string, tagsHtml: string)

  function CardOf(p: PageInfo): Card
  {
    Card(CardClass(p), p.url, p.name, AiBadge(p), FeaturedBadge(p), p.description, TagsHtml(p.tags))
  }

  /** The cards of a list of pages, in order. */
  function Cards(ps: seq<PageInfo>): (r: seq<Card>)
    ensures |r| == |ps|
  {
    seq(|ps|, i requires 0 <= i < |ps| => CardOf(ps[i]))
  }

  /** The link and title of each card are its page's, so the grid lists the shown pages in
      order, and a card's class and badges follow the page's flags. */
  lemma CardsFollowPages(ps: seq<PageInfo>, i: nat)
    requires i < |ps|
    ensures Cards(ps)[i].href == ps[i].url && Cards(ps)[i].title == ps[i].name
    ensures Cards(ps)[i].className == "page-card featured" <==> IsFeatured(ps[i])
    ensures Cards(ps)[i].featuredBadge != "" <==> IsFeatured(ps[i])
    ensures Cards(ps)[i].aiBadge != "" <==> IsAi(ps[i])
  {
    CardClassRule(ps[i]);
  }

  // ------------------------------------------------------------------- the page

  class Index {
    /** The listed pages. */
    const pages: seq<PageInfo>
    /** Whether the document has a `.pages-grid` element. */
    const hasGrid: bool
    /** The cards in the grid, in order. */
    var grid: seq<Card>

    constructor(hasGrid: bool, grid: seq<Card>)
      ensures pages == Pages && this.hasGrid == hasGrid && this.grid == grid
    {
      pages := Pages;
      this.hasGrid := hasGrid;
      this.grid := grid;
    }

    /** `renderPages`: clear the grid, then append one card per shown page; without a grid,
        do nothing. */
    method RenderPages(filterFeatured: bool, filterAi: bool)
      modifies this`grid
      ensures grid == if hasGrid then Cards(FilterPages(pages, filterFeatured, filterAi)) else old(grid)
    {
      if !hasGrid {
        return;
      }
      grid := [];
      var filteredPages := pages;
      if filterFeatured {
        filteredPages := Filter(filteredPages, IsFeatured);
      }
      if filterAi {
        filteredPages := Filter(filteredPages, IsAi);
      }
      for i := 0 to |filteredPages|
        invariant |grid| == i
        invariant forall j :: 0 <= j < i ==> grid[j] == CardOf(filteredPages[j])
      {
        var card := CardOf(filteredPages[i]);
        grid := grid + [card];
      }
    }

    /** `initializePages` and the toggles' change handler: a missing toggle counts as
        unchecked. */
    method Initialize(featuredToggle: Option<bool>, aiToggle: Option<bool>)
      modifies this`grid
      ensures grid == if hasGrid then Cards(FilterPages(pages, Truthy(featuredToggle), Truthy(aiToggle)))
                      else old(grid)
    {
      var filterFeatured := if featuredToggle.Some? then featuredToggle.value else false;
      var filterAi := if aiToggle.Some? then aiToggle.value else false;
      RenderPages(filterFeatured, filterAi);
    }
  }
}
