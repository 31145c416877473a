/** The `render` function of `src/main.rs` and the viewport matrix it
    relies on: the vertex stage, primitive assembly, rasterization and the
    fragment stage's bounds filter in front of `framebuffer.point`.

    `triangle.rs` and `framebuffer.rs` are not part of this model: the
    rasterizer is a parameter mapping a triangle to its fragments, and each
    `framebuffer.point(x, y, depth)` call (with the color set just before
    it) is recorded as a `PointCall` instead of being performed. */
module Pipeline {
  import opened Base
  import opened LinAlg
  import opened Shaders

  // ------------------------------------------------------------ viewport

  /** `create_viewport_matrix(width, height)`; `ViewportMap` states what it
      does to device coordinates. */
  function ViewportMatrix(width: real, height: real): Mat4 {
    Mat4(Vec4(width / 2.0, 0.0, 0.0, width / 2.0),
         Vec4(0.0, -height / 2.0, 0.0, height / 2.0),
         Vec4(0.0, 0.0, 1.0, 0.0),
         Vec4(0.0, 0.0, 0.0, 1.0))
  }

  /** The viewport transform as an affine map of normalised device
      coordinates: x from `[-1, 1]` onto `[0, width]`, y flipped onto
      `[height, 0]`, z and w passed through. */
  lemma ViewportMap(width: real, height: real, x: real, y: real, z: real)
    ensures MulVec4(ViewportMatrix(width, height), Vec4(x, y, z, 1.0))
         == Vec4((x + 1.0) * width / 2.0, (1.0 - y) * height / 2.0, z, 1.0)
  {
  }

  /** A vertex's screen position under the viewport matrix of a `width` by
      `height` framebuffer: its device coordinates, x scaled onto
      `[0, width]` and y flipped onto `[height, 0]`. */
  lemma VertexOnScreen(v: Vertex, u: Uniforms, width: real, height: real)
    requires ClipPosition(u, v.position).w != 0.0 && u.viewport == ViewportMatrix(width, height)
    ensures var ndc := PerspectiveDivide(ClipPosition(u, v.position));
            VertexShader(v, u).transformedPosition
              == Vec3((ndc.x + 1.0) * width / 2.0, (1.0 - ndc.y) * height / 2.0, ndc.z)
  {
    var ndc := PerspectiveDivide(ClipPosition(u, v.position));
    assert ndc == Vec4(ndc.x, ndc.y, ndc.z, 1.0);
    ViewportMap(width, height, ndc.x, ndc.y, ndc.z);
  }

  /** The corners: x = -1 goes to column 0 and x = 1 to `width`; y = 1
      goes to row 0 (the top) and y = -1 to `height`. */
  lemma ViewportCorners(width: real, height: real, z: real)
    ensures MulVec4(ViewportMatrix(width, height), Vec4(-1.0, 1.0, z, 1.0)) == Vec4(0.0, 0.0, z, 1.0)
    ensures MulVec4(ViewportMatrix(width, height), Vec4(1.0, -1.0, z, 1.0)) == Vec4(width, height, z, 1.0)
  {
    ViewportMap(width, height, -1.0, 1.0, z);
    ViewportMap(width, height, 1.0, -1.0, z);
  }

  /** The inverse of the viewport transform for a non-degenerate
      framebuffer: from screen coordinates back to device coordinates. */
  function ScreenToDevice(width: real, height: real, s: Vec4): Vec4
    requires width != 0.0 && height != 0.0
  {
    Vec4(2.0 * s.x / width - 1.0, 1.0 - 2.0 * s.y / height, s.z, 1.0)
  }

  /** The viewport transform is invertible on the `w = 1` plane when the
      framebuffer has non-zero extent, in both directions. */
  lemma ViewportInverse(width: real, height: real, p: Vec4)
    requires width != 0.0 && height != 0.0 && p.w == 1.0
    ensures ScreenToDevice(width, height, MulVec4(ViewportMatrix(width, height), p)) == p
    ensures MulVec4(ViewportMatrix(width, height), ScreenToDevice(width, height, p)) == p
  {
    ViewportMap(width, height, p.x, p.y, p.z);
    HalfScaleInverse(p.x + 1.0, width);
    HalfScaleInverse(1.0 - p.y, height);
    var q := ScreenToDevice(width, height, p);
    ViewportMap(width, height, q.x, q.y, q.z);
    ScaleHalfInverse(p.x, width);
    ScaleHalfInverse(p.y, height);
  }

  lemma HalfScaleInverse(a: real, w: real)
    requires w != 0.0
    ensures 2.0 * (a * w / 2.0) / w == a
  {
    assert 2.0 * (a * w / 2.0) == a * w;
  }

  lemma ScaleHalfInverse(s: real, w: real)
    requires w != 0.0
    ensures (2.0 * s / w - 1.0 + 1.0) * w / 2.0 == s
    ensures (1.0 - (1.0 - 2.0 * s / w)) * w / 2.0 == s
  {
    assert (2.0 * s / w) * w == 2.0 * s;
  }

  // ------------------------------------------------------------ vertex stage

  /** Every vertex of the array has a non-zero clip `w`, the condition
      under which the vertex shader's perspective division is defined. */
  predicate Projectable(u: Uniforms, vs: seq<Vertex>) {
    forall i :: 0 <= i < |vs| ==> ClipPosition(u, vs[i].position).w != 0.0
  }

  /** The vertex stage as a sequence: one shaded vertex per input vertex. */
  function ShadeAll(vs: seq<Vertex>, u: Uniforms): (r: seq<Vertex>)
    requires Projectable(u, vs)
    ensures |r| == |vs|
  {
    seq(|vs|, i requires 0 <= i < |vs| => VertexShader(vs[i], u))
  }

  /** The vertex-shader loop of `render`: exactly one output per input
      vertex, in the same order, each carrying its input's attributes. */
  method VertexStage(vs: seq<Vertex>, u: Uniforms) returns (out: seq<Vertex>)
    requires Projectable(u, vs)
    ensures |out| == |vs|
    ensures forall i :: 0 <= i < |vs| ==> out[i] == VertexShader(vs[i], u)
    ensures forall i :: 0 <= i < |vs| ==> out[i].position == vs[i].position && out[i].color == vs[i].color
    ensures out == ShadeAll(vs, u)
  {
    out := [];
    for i := 0 to |vs|
      invariant |out| == i
      invariant forall j :: 0 <= j < i ==> out[j] == VertexShader(vs[j], u)
    {
      var transformed := VertexShader(vs[i], u);
      out := out + [transformed];
    }
  }

  // ------------------------------------------------------------ primitive assembly

  datatype Triangle = Triangle(a: Vertex, b: Vertex, c: Vertex)

  /** Groups of three consecutive vertices; a trailing group of one or two
      vertices forms no triangle. */
  function Triangles(vs: seq<Vertex>): (r: seq<Triangle>)
    ensures |r| == |vs| / 3
  {
    seq(|vs| / 3, k requires 0 <= k < |vs| / 3 => Triangle(vs[3 * k], vs[3 * k + 1], vs[3 * k + 2]))
  }

  /** The primitive-assembly loop of `render`: `i` runs over
      `0, 3, 6, ...` below the length and a triangle is pushed only when
      `i + 2` is still an index. */
  method AssemblePrimitives(vs: seq<Vertex>) returns (tris: seq<Triangle>)
    ensures |tris| == |vs| / 3
    ensures forall k :: 0 <= k < |tris| ==> tris[k] == Triangle(vs[3 * k], vs[3 * k + 1], vs[3 * k + 2])
    ensures tris == Triangles(vs)
  {
    tris := [];
    var i := 0;
    while i < |vs|
      invariant i % 3 == 0 && i <= |vs| + 2
      invariant |tris| == Min(i / 3, |vs| / 3)
      invariant forall k :: 0 <= k < |tris| ==> tris[k] == Triangle(vs[3 * k], vs[3 * k + 1], vs[3 * k + 2])
    {
      if i + 2 < |vs| {
        tris := tris + [Triangle(vs[i], vs[i + 1], vs[i + 2])];
      }
      i := i + 3;
    }
  }

  function Min(a: int, b: int): int {
    if a <= b then a else b
  }

  /** The vertices the triangles hold, in order. */
  function Flatten(tris: seq<Triangle>): (r: seq<Vertex>)
    ensures |r| == 3 * |tris|
  {
    if tris == [] then []
    else [tris[0].a, tris[0].b, tris[0].c] + Flatten(tris[1..])
  }

  /** Flattening undoes the grouping: the triangles hold exactly the
      vertex array with its last `|vs| % 3` vertices dropped. */
  lemma {:induction false} FlattenTriangles(vs: seq<Vertex>)
    ensures Flatten(Triangles(vs)) == vs[..3 * (|vs| / 3)]
    decreases |vs|
  {
    if |vs| >= 3 {
      var rest := vs[3..];
      FlattenTriangles(rest);
      assert Triangles(vs)[1..] == Triangles(rest);
      assert vs[..3 * (|vs| / 3)] == vs[..3] + rest[..3 * (|rest| / 3)];
    }
  }

  // ------------------------------------------------------------ rasterization

  /** The rasterization loop: the fragments of each triangle, concatenated
      in triangle order. */
  function Rasterize(tris: seq<Triangle>, raster: Triangle -> seq<Fragment>): (r: seq<Fragment>)
    ensures |tris| == 1 ==> r == raster(tris[0])
    ensures forall k :: 0 <= k < |tris| ==> |raster(tris[k])| <= |r|
  {
    if tris == [] then []
    else
      var rest := Rasterize(tris[1..], raster);
      assert forall k :: 1 <= k < |tris| ==> tris[k] == tris[1..][k - 1];
      raster(tris[0]) + rest
  }

  /** Rasterizing a concatenation concatenates the fragment lists. */
  lemma {:induction false} RasterizeAppend(a: seq<Triangle>, b: seq<Triangle>, raster: Triangle -> seq<Fragment>)
    ensures Rasterize(a + b, raster) == Rasterize(a, raster) + Rasterize(b, raster)
    decreases |a|
  {
    if a != [] {
      assert (a + b)[1..] == a[1..] + b;
      RasterizeAppend(a[1..], b, raster);
    } else {
      assert a + b == b;
    }
  }

  /** Every fragment produced comes from some triangle of the list. */
  lemma {:induction false} RasterizeOrigin(tris: seq<Triangle>, raster: Triangle -> seq<Fragment>, g: Fragment)
    requires g in Rasterize(tris, raster)
    ensures exists k :: 0 <= k < |tris| && g in raster(tris[k])
    decreases |tris|
  {
    if g !in raster(tris[0]) {
      RasterizeOrigin(tris[1..], raster, g);
      var k :| 0 <= k < |tris[1..]| && g in raster(tris[1..][k]);
      assert g in raster(tris[k + 1]);
    }
  }

  // ------------------------------------------------------------ fragment stage

  /** One `framebuffer.point(x, y, depth)` call, with the color set by
      `set_current_color` just before it. */
  datatype PointCall = PointCall(x: nat, y: nat, depth: real, color: Color)

  /** The fragment's pixel: both coordinates cast with `as usize`. */
  function Pixel(f: Fragment): (nat, nat) {
    (AsUsize(f.position.x), AsUsize(f.position.y))
  }

  predicate InBounds(f: Fragment, width: nat, height: nat) {
    Pixel(f).0 < width && Pixel(f).1 < height
  }

  function Plot(f: Fragment, shade: Fragment -> Color): PointCall {
    PointCall(Pixel(f).0, Pixel(f).1, f.depth, shade(f))
  }

  /** The fragment loop of `render`: a fragment whose pixel lies inside the
      framebuffer is shaded and plotted; any other is skipped. */
  function Writes(frags: seq<Fragment>, width: nat, height: nat, shade: Fragment -> Color): (r: seq<PointCall>)
    ensures |r| <= |frags|
    ensures forall w :: w in r ==> w.x < width && w.y < height
  {
    if frags == [] then []
    else
      var rest := Writes(frags[1..], width, height, shade);
      if InBounds(frags[0], width, height) then [Plot(frags[0], shade)] + rest else rest
  }

  lemma {:induction false} WritesAppend(a: seq<Fragment>, b: seq<Fragment>, width: nat, height: nat, shade: Fragment -> Color)
    ensures Writes(a + b, width, height, shade) == Writes(a, width, height, shade) + Writes(b, width, height, shade)
    decreases |a|
  {
    if a != [] {
      assert (a + b)[1..] == a[1..] + b;
      WritesAppend(a[1..], b, width, height, shade);
    } else {
      assert a + b == b;
    }
  }

  /** Both directions of the filter: every in-bounds fragment is plotted,
      and every plot comes from an in-bounds fragment. */
  lemma {:induction false} WritesExactly(frags: seq<Fragment>, width: nat, height: nat, shade: Fragment -> Color)
    ensures forall i :: 0 <= i < |frags| && InBounds(frags[i], width, height) ==>
              Plot(frags[i], shade) in Writes(frags, width, height, shade)
    ensures forall w :: w in Writes(frags, width, height, shade) ==>
              exists i :: 0 <= i < |frags| && InBounds(frags[i], width, height) && w == Plot(frags[i], shade)
    decreases |frags|
  {
    if frags != [] {
      var rest := frags[1..];
      WritesExactly(rest, width, height, shade);
      forall i | 0 <= i < |frags| && InBounds(frags[i], width, height)
        ensures Plot(frags[i], shade) in Writes(frags, width, height, shade)
      {
        if i > 0 {
          assert frags[i] == rest[i - 1];
        }
      }
      forall w | w in Writes(frags, width, height, shade)
        ensures exists i :: 0 <= i < |frags| && InBounds(frags[i], width, height) && w == Plot(frags[i], shade)
      {
        if w in Writes(rest, width, height, shade) {
          var j :| 0 <= j < |rest| && InBounds(rest[j], width, height) && w == Plot(rest[j], shade);
          assert frags[j + 1] == rest[j];
        } else {
          assert InBounds(frags[0], width, height) && w == Plot(frags[0], shade);
        }
      }
    }
  }

  /** When every fragment is inside the framebuffer, every one of them is
      plotted, in order; when none is, nothing is. */
  lemma {:induction false} WritesAllOrNothing(frags: seq<Fragment>, width: nat, height: nat, shade: Fragment -> Color)
    ensures (forall i :: 0 <= i < |frags| ==> InBounds(frags[i], width, height)) ==>
              Writes(frags, width, height, shade) == seq(|frags|, i requires 0 <= i < |frags| => Plot(frags[i], shade))
    ensures (forall i :: 0 <= i < |frags| ==> !InBounds(frags[i], width, height)) ==>
              Writes(frags, width, height, shade) == []
    decreases |frags|
  {
    if frags != [] {
      var rest := frags[1..];
      WritesAllOrNothing(rest, width, height, shade);
      if forall i :: 0 <= i < |frags| ==> InBounds(frags[i], width, height) {
        assert forall i :: 0 <= i < |rest| ==> InBounds(rest[i], width, height) by {
          forall i | 0 <= i < |rest| ensures InBounds(rest[i], width, height) {
            assert rest[i] == frags[i + 1];
          }
        }
      }
      if forall i :: 0 <= i < |frags| ==> !InBounds(frags[i], width, height) {
        assert forall i :: 0 <= i < |rest| ==> !InBounds(rest[i], width, height) by {
          forall i | 0 <= i < |rest| ensures !InBounds(rest[i], width, height) {
            assert rest[i] == frags[i + 1];
          }
        }
      }
    }
  }

  /** Out-of-bounds fragments are skipped without shading: two shading
      functions that agree on the in-bounds fragments produce the same
      writes. */
  lemma {:induction false} WritesShadeOnlyInBounds(frags: seq<Fragment>, width: nat, height: nat,
                                                   shade: Fragment -> Color, shade': Fragment -> Color)
    requires forall i :: 0 <= i < |frags| && InBounds(frags[i], width, height) ==> shade(frags[i]) == shade'(frags[i])
    ensures Writes(frags, width, height, shade) == Writes(frags, width, height, shade')
    decreases |frags|
  {
    if frags != [] {
      var rest := frags[1..];
      assert forall i :: 0 <= i < |rest| && InBounds(rest[i], width, height) ==> shade(rest[i]) == shade'(rest[i]) by {
        forall i | 0 <= i < |rest| && InBounds(rest[i], width, height) ensures shade(rest[i]) == shade'(rest[i]) {
          assert rest[i] == frags[i + 1];
        }
      }
      WritesShadeOnlyInBounds(rest, width, height, shade, shade');
    }
  }

  /** `as usize` saturates negative coordinates to 0, and the bounds test
      only compares against the width and height, so a fragment left of the
      framebuffer (any `x < 1`, negative ones included) is plotted in
      column 0 rather than skipped. */
  lemma LeftOfScreenPlotsColumnZero(f: Fragment, width: nat, height: nat, shade: Fragment -> Color)
    requires f.position.x < 1.0 && 0 < width && AsUsize(f.position.y) < height
    ensures Writes([f], width, height, shade) == [PointCall(0, AsUsize(f.position.y), f.depth, shade(f))]
  {
    assert [f][1..] == [];
  }

  // ------------------------------------------------------------ render

  /** `render`: vertex stage, primitive assembly, rasterization and the
      fragment stage, with the planet's fragment shader. */
  function Render(width: nat, height: nat, u: Uniforms, vs: seq<Vertex>, p: PlanetType, t: Trig,
                  others: (PlanetType, Fragment, Uniforms) -> Color,
                  raster: Triangle -> seq<Fragment>): (r: seq<PointCall>)
    requires Projectable(u, vs)
    ensures forall w :: w in r ==> w.x < width && w.y < height
    ensures |r| <= |Rasterize(Triangles(ShadeAll(vs, u)), raster)|
  {
    var frags := Rasterize(Triangles(ShadeAll(vs, u)), raster);
    Writes(frags, width, height, f => FragmentShader(f, u, p, t, others))
  }

  /** Every plotted pixel comes from a fragment of one of the triangles
      built from the shaded vertices, and is colored by the planet's shader. */
  lemma RenderOrigin(width: nat, height: nat, u: Uniforms, vs: seq<Vertex>, p: PlanetType, t: Trig,
                     others: (PlanetType, Fragment, Uniforms) -> Color,
                     raster: Triangle -> seq<Fragment>, w: PointCall)
    requires Projectable(u, vs)
    requires w in Render(width, height, u, vs, p, t, others, raster)
    ensures exists k, g :: 0 <= k < |vs| / 3 && g in raster(Triangles(ShadeAll(vs, u))[k])
              && InBounds(g, width, height) && w == PointCall(Pixel(g).0, Pixel(g).1, g.depth, FragmentShader(g, u, p, t, others))
  {
    var tris := Triangles(ShadeAll(vs, u));
    var frags := Rasterize(tris, raster);
    var shade := f => FragmentShader(f, u, p, t, others);
    WritesExactly(frags, width, height, shade);
    var i :| 0 <= i < |frags| && InBounds(frags[i], width, height) && w == Plot(frags[i], shade);
    RasterizeOrigin(tris, raster, frags[i]);
    var k :| 0 <= k < |tris| && frags[i] in raster(tris[k]);
    assert k < |vs| / 3;
  }
}
