/**
 * The integer side of the physics debug renderer (src/debug/debug_draw.c):
 * splitting a hex colour into channels, the edge order of a polygon
 * outline, and the vertex and index buffers of a filled polygon drawn as
 * a triangle fan. Polygon vertices are referred to by their index; the
 * floating-point placement of a vertex on screen is the parameter `place`.
 */
module DebugDraw {
  import opened Common

  /** A colour as the renderer takes it: red, green and blue bytes, and alpha. */
  datatype Rgba = Rgba(r: bv32, g: bv32, b: bv32, a: int)

  /** The colour setColor selects: the three low bytes of `color`, and `alpha`. */
  function SetColor(color: bv32, alpha: int): (c: Rgba)
    ensures c.r < 256 && c.g < 256 && c.b < 256 && c.a == alpha
  {
    Rgba((color >> 16) & 0xFF, (color >> 8) & 0xFF, color & 0xFF, alpha)
  }

  /** The hex colour 0xRRGGBB. */
  function Hex(r: bv32, g: bv32, b: bv32): bv32
  {
    (r << 16) | (g << 8) | b
  }

  /** Unpacking a packed colour gives back its channels. */
  lemma SetColorOfHex(r: bv32, g: bv32, b: bv32, alpha: int)
    requires r < 256 && g < 256 && b < 256
    ensures SetColor(Hex(r, g, b), alpha) == Rgba(r, g, b, alpha)
  {
  }

  /** Only the low 24 bits of a colour matter, and those are recovered from its channels. */
  lemma HexOfSetColor(color: bv32, alpha: int)
    ensures var c := SetColor(color, alpha); Hex(c.r, c.g, c.b) == color & 0xFF_FFFF
  {
  }

  /** A line between two polygon vertices, by index. */
  datatype Segment = Segment(from: nat, to: nat)

  /** The open chain 0-1, 1-2, …, (k-2)-(k-1) through the first k vertices. */
  function Chain(k: nat): (s: seq<Segment>)
    ensures |s| == if k == 0 then 0 else k - 1
  {
    if k <= 1 then [] else Chain(k - 1) + [Segment(k - 2, k - 1)]
  }

  /** The outline of an n-gon: the closing edge (n-1)-0 first, then the chain. */
  function OutlineOf(n: nat): seq<Segment>
  {
    if n < 3 then [] else [Segment(n - 1, 0)] + Chain(n)
  }

  /** How many segments of `s` end at vertex v. */
  function Degree(s: seq<Segment>, v: nat): nat
  {
    if s == [] then 0
    else Degree(s[..|s| - 1], v) + (if s[|s| - 1].from == v || s[|s| - 1].to == v then 1 else 0)
  }

  lemma {:induction false} DegreeConcat(a: seq<Segment>, b: seq<Segment>, v: nat)
    ensures Degree(a + b, v) == Degree(a, v) + Degree(b, v)
    decreases |b|
  {
    if b == [] {
      assert a + b == a;
    } else {
      assert (a + b)[..|a + b| - 1] == a + b[..|b| - 1];
      DegreeConcat(a, b[..|b| - 1], v);
    }
  }

  /** In the chain through k vertices the two ends have one segment and the inner vertices two. */
  lemma {:induction false} ChainDegree(k: nat, v: nat)
    requires 1 <= k
    ensures Degree(Chain(k), v) == if v >= k then 0 else (if v > 0 then 1 else 0) + (if v < k - 1 then 1 else 0)
  {
    if k > 1 {
      ChainDegree(k - 1, v);
      DegreeConcat(Chain(k - 1), [Segment(k - 2, k - 1)], v);
      assert [Segment(k - 2, k - 1)][..0] == [];
    }
  }

  lemma {:induction false} ChainSteps(k: nat, i: nat)
    requires i < |Chain(k)|
    ensures Chain(k)[i] == Segment(i, i + 1)
  {
    if i < |Chain(k - 1)| {
      ChainSteps(k - 1, i);
    }
  }

  /** The vertex after v around an n-gon. */
  function Succ(n: nat, v: nat): nat
  {
    if v + 1 == n then 0 else v + 1
  }

  /** Segment i of the outline of an n-gon joins a vertex to the next one around the polygon. */
  lemma OutlineStep(n: nat, i: nat)
    requires n >= 3 && i < n
    ensures |OutlineOf(n)| == n
    ensures OutlineOf(n)[i].from < n && OutlineOf(n)[i].to == Succ(n, OutlineOf(n)[i].from)
  {
    if i > 0 {
      ChainSteps(n, i - 1);
      assert OutlineOf(n)[i] == Chain(n)[i - 1];
    }
  }

  /** The outline of an n-gon (n >= 3) is closed: n segments, each joining a vertex to the next. */
  lemma OutlineSteps(n: nat)
    requires n >= 3
    ensures |OutlineOf(n)| == n
    ensures forall i :: 0 <= i < n ==> OutlineOf(n)[i].from < n && OutlineOf(n)[i].to == Succ(n, OutlineOf(n)[i].from)
  {
    forall i | 0 <= i < n
      ensures OutlineOf(n)[i].from < n && OutlineOf(n)[i].to == Succ(n, OutlineOf(n)[i].from)
    {
      OutlineStep(n, i);
    }
  }

  /** Every vertex of the outline of an n-gon (n >= 3) is the endpoint of exactly two segments. */
  lemma OutlineDegree(n: nat, v: nat)
    requires n >= 3 && v < n
    ensures Degree(OutlineOf(n), v) == 2
  {
    DegreeConcat([Segment(n - 1, 0)], Chain(n), v);
    assert [Segment(n - 1, 0)][..0] == [];
    ChainDegree(n, v);
  }

  /**
   * debugDrawPolygon: nothing without a render context or with fewer than
   * three vertices; otherwise the pen is set to `color`, opaque, and the
   * closing edge is drawn, then the edges (i-1)-i in order.
   */
  method Outline(hasCtx: bool, n: int, color: bv32) returns (pen: Option<Rgba>, lines: seq<Segment>)
    ensures !hasCtx || n < 3 ==> pen == None && lines == []
    ensures hasCtx && n >= 3 ==> pen == Some(SetColor(color, 0xFF)) && lines == OutlineOf(n)
  {
    if !hasCtx || n < 3 {
      return None, [];
    }
    pen := Some(SetColor(color, 0xFF));
    lines := [Segment(n - 1, 0)];
    var i := 1;
    while i < n
      invariant 1 <= i <= n
      invariant lines == [Segment(n - 1, 0)] + Chain(i)
    {
      lines := lines + [Segment(i - 1, i)];
      i := i + 1;
    }
  }

  /** A vertex handed to the renderer: its screen position and its colour. */
  datatype Vertex<Q> = Vertex(position: Q, color: Rgba)

  /** The fan's index buffer: triangle t is (0, t+1, t+2). */
  function FanOf(n: nat): (s: seq<int>)
    requires n >= 2
    ensures |s| == 3 * (n - 2)
  {
    seq(3 * (n - 2), k => if k % 3 == 0 then 0 else k / 3 + k % 3)
  }

  /**
   * The fan over an n-gon uses only the polygon's own vertices, every
   * triangle has vertex 0 as a corner, consecutive triangles share the
   * edge from 0, and every vertex is a corner of some triangle.
   */
  lemma FanCoversPolygon(n: nat)
    requires n >= 3
    ensures forall k :: 0 <= k < |FanOf(n)| ==> 0 <= FanOf(n)[k] < n
    ensures forall t :: 0 <= t < n - 2 ==> FanOf(n)[3 * t] == 0 && FanOf(n)[3 * t + 1] == t + 1 && FanOf(n)[3 * t + 2] == t + 2
    ensures forall t :: 0 < t < n - 2 ==> FanOf(n)[3 * t + 1] == FanOf(n)[3 * (t - 1) + 2]
    ensures forall v :: 0 <= v < n ==> v in FanOf(n)
  {
    forall t | 0 <= t < n - 2
      ensures FanOf(n)[3 * t] == 0 && FanOf(n)[3 * t + 1] == t + 1 && FanOf(n)[3 * t + 2] == t + 2
    {
      assert (3 * t + 1) / 3 == t && (3 * t + 1) % 3 == 1;
      assert (3 * t + 2) / 3 == t && (3 * t + 2) % 3 == 2;
      assert (3 * t) % 3 == 0;
    }
    forall v | 0 <= v < n
      ensures v in FanOf(n)
    {
      if v == 0 {
        assert FanOf(n)[0] == 0;
      } else if v == 1 {
        assert FanOf(n)[1] == 1;
      } else {
        assert FanOf(n)[3 * (v - 2) + 2] == v;
      }
    }
  }

  /** The forArray loop of debugDrawSolidPolygon: vertex i of the polygon, placed, in the fill colour. */
  method FanVertices<P, Q(0)>(vertices: seq<P>, place: P -> Q, fill: Rgba) returns (out: array<Vertex<Q>>)
    ensures fresh(out) && out.Length == |vertices|
    ensures forall i :: 0 <= i < |vertices| ==> out[i] == Vertex(place(vertices[i]), fill)
  {
    out := new Vertex<Q>[|vertices|];
    var i := 0;
    var p := 0;
    while p != out.Length
      invariant 0 <= p <= out.Length && i == p
      invariant forall k :: 0 <= k < p ==> out[k] == Vertex(place(vertices[k]), fill)
    {
      out[p] := Vertex(place(vertices[i]), fill);
      i := i + 1;
      p := p + 1;
    }
  }

  /** The index loop of debugDrawSolidPolygon, over an n-gon (n >= 2, so the buffer size is not negative). */
  method FanIndices(n: int) returns (indices: array<int>)
    requires n >= 2
    ensures fresh(indices) && indices[..] == FanOf(n)
  {
    indices := new int[(n - 2) * 3];
    var i := 0;
    while i < n - 2
      invariant 0 <= i <= n - 2
      invariant forall k :: 0 <= k < 3 * i ==> indices[k] == FanOf(n)[k]
    {
      indices[i * 3] := 0;
      indices[i * 3 + 1] := i + 1;
      indices[i * 3 + 2] := i + 2;
      assert (i * 3 + 1) / 3 == i && (i * 3 + 1) % 3 == 1;
      assert (i * 3 + 2) / 3 == i && (i * 3 + 2) % 3 == 2;
      assert (i * 3) % 3 == 0;
      i := i + 1;
    }
    assert indices[..] == FanOf(n);
  }

  /** What debugDrawSolidPolygon hands to the renderer: the pen, and the fan's vertices and indices. */
  datatype Geometry<Q> = Geometry(pen: Rgba, vertices: seq<Vertex<Q>>, indices: seq<int>)

  /**
   * debugDrawSolidPolygon: nothing without a render context; otherwise the
   * pen is set to `color` half transparent, and the polygon is filled as a
   * fan of opaque vertices. The vertex count is not checked, so at least
   * two vertices are required.
   */
  method SolidPolygon<P, Q(0)>(hasCtx: bool, vertices: seq<P>, place: P -> Q, color: bv32) returns (g: Option<Geometry<Q>>)
    requires hasCtx ==> |vertices| >= 2
    ensures !hasCtx ==> g == None
    ensures hasCtx ==> g.Some? && g.value.pen == SetColor(color, 0x7F) && g.value.indices == FanOf(|vertices|)
    ensures hasCtx ==> |g.value.vertices| == |vertices|
    ensures hasCtx ==> forall i :: 0 <= i < |vertices| ==> g.value.vertices[i] == Vertex(place(vertices[i]), SetColor(color, 0xFF))
  {
    if !hasCtx {
      return None;
    }
    var pen := SetColor(color, 0x7F);
    var vs := FanVertices(vertices, place, SetColor(color, 0xFF));
    var idx := FanIndices(|vertices|);
    g := Some(Geometry(pen, vs[..], idx[..]));
  }
}
