/**
 The two pieces of loop logic in the program's entry point: the axis-aligned
 bounding box of the mesh, and the per-face loop that runs the vertex stage
 on each corner, drops faces with a corner behind the camera and counts the
 faces handed to the rasterizer. The rasterizer `triangle()` is not part of
 this model: each call to it is recorded as an event.
 */
module Driver {
  import opened Numerics
  import opened Geometry
  import opened Meshes
  import opened Phong

  // ---------------------------------------------------------------- bounds

  /** Every vertex lies within `lo` .. `hi` on every axis. */
  ghost predicate Encloses(verts: seq<Vec3>, lo: Vec3, hi: Vec3) {
    forall i, a :: 0 <= i < |verts| && 0 <= a < 3 ==> lo.Get(a) <= verts[i].Get(a) <= hi.Get(a)
  }

  /** Some vertex has coordinate `c` on axis `a`. */
  ghost predicate Attained(verts: seq<Vec3>, a: int, c: real)
    requires 0 <= a < 3
  {
    exists i :: 0 <= i < |verts| && verts[i].Get(a) == c
  }

  /**
   `lo` and `hi` are the tightest box around `verts`: it encloses every
   vertex, and every bound component is attained by a vertex.
   */
  ghost predicate IsTightBox(verts: seq<Vec3>, lo: Vec3, hi: Vec3) {
    && Encloses(verts, lo, hi)
    && (forall a :: 0 <= a < 3 ==> Attained(verts, a, lo.Get(a)) && Attained(verts, a, hi.Get(a)))
  }

  /** A single vertex is its own tight box. */
  lemma TightBoxOfOne(v: Vec3)
    ensures IsTightBox([v], v, v)
  {
    forall a | 0 <= a < 3
      ensures Attained([v], a, v.Get(a))
    {
      assert [v][0].Get(a) == v.Get(a);
    }
  }

  /** Widening a tight box by one more vertex, axis by axis, keeps it tight. */
  lemma TightBoxExtend(verts: seq<Vec3>, lo: Vec3, hi: Vec3, v: Vec3, lo': Vec3, hi': Vec3)
    requires IsTightBox(verts, lo, hi)
    requires forall a :: 0 <= a < 3 ==> lo'.Get(a) == Min(lo.Get(a), v.Get(a)) && hi'.Get(a) == Max(hi.Get(a), v.Get(a))
    ensures IsTightBox(verts + [v], lo', hi')
  {
    var vs := verts + [v];
    forall a | 0 <= a < 3
      ensures Attained(vs, a, lo'.Get(a)) && Attained(vs, a, hi'.Get(a))
    {
      assert Attained(verts, a, lo.Get(a)) && Attained(verts, a, hi.Get(a));
      var i :| 0 <= i < |verts| && verts[i].Get(a) == lo.Get(a);
      var i' :| 0 <= i' < |verts| && verts[i'].Get(a) == hi.Get(a);
      assert vs[i] == verts[i] && vs[i'] == verts[i'] && vs[|verts|] == v;
      if lo'.Get(a) == v.Get(a) {
        assert vs[|verts|].Get(a) == lo'.Get(a);
      } else {
        assert vs[i].Get(a) == lo'.Get(a);
      }
      if hi'.Get(a) == v.Get(a) {
        assert vs[|verts|].Get(a) == hi'.Get(a);
      } else {
        assert vs[i'].Get(a) == hi'.Get(a);
      }
    }
    forall i, a | 0 <= i < |vs| && 0 <= a < 3
      ensures lo'.Get(a) <= vs[i].Get(a) <= hi'.Get(a)
    {
      if i < |verts| {
        assert vs[i] == verts[i];
      }
    }
  }

  /**
   `compute_model_bounds(model, min, max)`. With no vertices the caller's
   `min` and `max` are returned untouched.
   */
  method ComputeModelBounds(verts: seq<Vec3>, min0: Vec3, max0: Vec3) returns (min: Vec3, max: Vec3)
    ensures |verts| == 0 ==> min == min0 && max == max0
    ensures Encloses(verts, min, max)
    ensures |verts| > 0 ==> forall a :: 0 <= a < 3 ==> Attained(verts, a, min.Get(a)) && Attained(verts, a, max.Get(a))
  {
    min, max := min0, max0;
    if |verts| == 0 {
      return;
    }
    min := verts[0];
    max := verts[0];
    TightBoxOfOne(verts[0]);
    assert verts[..1] == [verts[0]];
    var i := 1;
    while i < |verts|
      invariant 1 <= i <= |verts|
      invariant IsTightBox(verts[..i], min, max)
    {
      var v := verts[i];
      var min1, max1 := min, max;
      var j := 0;
      while j < 3
        invariant 0 <= j <= 3
        invariant forall a :: 0 <= a < j ==> min.Get(a) == Min(min1.Get(a), v.Get(a)) && max.Get(a) == Max(max1.Get(a), v.Get(a))
        invariant forall a :: j <= a < 3 ==> min.Get(a) == min1.Get(a) && max.Get(a) == max1.Get(a)
      {
        if v.Get(j) < min.Get(j) {
          min := min.With(j, v.Get(j));
        }
        if v.Get(j) > max.Get(j) {
          max := max.With(j, v.Get(j));
        }
        j := j + 1;
      }
      TightBoxExtend(verts[..i], min1, max1, v, min, max);
      assert verts[..i + 1] == verts[..i] + [v];
      i := i + 1;
    }
    assert verts[..i] == verts;
  }

  /** `model_center = (model_min + model_max) * 0.5`. */
  function ModelCenter(min: Vec3, max: Vec3): Vec3 {
    Scale(Add(min, max), 0.5)
  }

  /** For a non-empty mesh the bounds are ordered and the center lies between them. */
  lemma ModelCenterInside(verts: seq<Vec3>, min: Vec3, max: Vec3)
    requires |verts| > 0
    requires Encloses(verts, min, max)
    ensures forall a :: 0 <= a < 3 ==>
      min.Get(a) <= max.Get(a) && min.Get(a) <= ModelCenter(min, max).Get(a) <= max.Get(a)
    ensures Sub(ModelCenter(min, max), min) == Sub(max, ModelCenter(min, max))
  {
    forall a | 0 <= a < 3
      ensures min.Get(a) <= max.Get(a)
    {
      assert min.Get(a) <= verts[0].Get(a) <= max.Get(a);
    }
  }

  // ------------------------------------------------------------ face loop

  /** One call `shader.vertex(face, corner)`. */
  datatype VertexCall = VertexCall(face: int, corner: int)

  /** One call `triangle(screen_coords, shader, ...)`, with the varyings the shader then holds. */
  datatype TriangleCall = TriangleCall(face: int, screen: Corners<Vec4>, varyings: Varyings)

  /** The behind-camera test passes: the vertex stage's result has `w > 0`. */
  predicate InFront(u: Uniforms, g: Transforms, mesh: Mesh, face: int, corner: int) {
    ScreenPosition(u, g, mesh, face, corner).w > 0.0
  }

  /** A face reaches the rasterizer iff all three corners are in front. */
  predicate Accepted(u: Uniforms, g: Transforms, mesh: Mesh, face: int) {
    forall k :: 0 <= k < 3 ==> InFront(u, g, mesh, face, k)
  }

  /**
   The test at the driver's `w <= 0` check reads the vertex stage's return
   value, whatever the shader's varyings held before the call.
   */
  lemma InFrontIsVertexW(sh: PhongShader, g: Transforms, mesh: Mesh, face: int, corner: int)
    requires 0 <= corner < 3
    ensures InFront(sh.uniforms, g, mesh, face, corner) <==> Vertex(sh, g, mesh, face, corner).position.w > 0.0
  {
  }

  /** A face is accepted iff every corner's vertex-stage result has `w > 0`. */
  lemma AcceptedIffAllCornersW(sh: PhongShader, g: Transforms, mesh: Mesh, face: int)
    ensures Accepted(sh.uniforms, g, mesh, face) <==>
      forall k :: 0 <= k < 3 ==> Vertex(sh, g, mesh, face, k).position.w > 0.0
  {
    forall k | 0 <= k < 3
      ensures InFront(sh.uniforms, g, mesh, face, k) <==> Vertex(sh, g, mesh, face, k).position.w > 0.0
    {
      InFrontIsVertexW(sh, g, mesh, face, k);
    }
  }

  /** The behind-camera test of every corner of every face, as one function. */
  function Front(u: Uniforms, g: Transforms, mesh: Mesh): (int, int) -> bool {
    (f: int, k: int) => InFront(u, g, mesh, f, k)
  }

  /**
   How many corners of a face the loop runs on for a given behind-camera
   test: up to and including the first corner that fails it.
   */
  function RunLength(front: (int, int) -> bool, face: int): nat {
    if !front(face, 0) then 1 else if !front(face, 1) then 2 else 3
  }

  /** How many corners of a face the vertex stage runs on: up to and including the first one behind. */
  function CornersRun(u: Uniforms, g: Transforms, mesh: Mesh, face: int): (n: nat)
    ensures 1 <= n <= 3
    ensures forall i :: 0 <= i < n - 1 ==> InFront(u, g, mesh, face, i)
    ensures n < 3 ==> !InFront(u, g, mesh, face, n - 1)
    ensures n == 3 && InFront(u, g, mesh, face, 2) <==> Accepted(u, g, mesh, face)
  {
    RunLength(Front(u, g, mesh), face)
  }

  /** The vertex calls for corners 0 .. n-1 of a face, in that order. */
  function FaceCalls(face: int, n: nat): (s: seq<VertexCall>)
    ensures |s| == n
    ensures forall i :: 0 <= i < n ==> s[i] == VertexCall(face, i)
  {
    seq(n, i => VertexCall(face, i))
  }

  /** The screen coordinates of all three corners of a face. */
  function FaceScreen(u: Uniforms, g: Transforms, mesh: Mesh, face: int): Corners<Vec4> {
    Corners(ScreenPosition(u, g, mesh, face, 0), ScreenPosition(u, g, mesh, face, 1),
            ScreenPosition(u, g, mesh, face, 2))
  }

  /** The varyings the vertex stage leaves after running on all three corners of a face. */
  function FaceVaryings(u: Uniforms, mesh: Mesh, face: int): Varyings {
    Varyings(
      Corners(CornerPosition(u, mesh, face, 0), CornerPosition(u, mesh, face, 1), CornerPosition(u, mesh, face, 2)),
      Corners(CornerNormal(u, mesh, face, 0), CornerNormal(u, mesh, face, 1), CornerNormal(u, mesh, face, 2)),
      Corners(mesh.uvOf(face, 0), mesh.uvOf(face, 1), mesh.uvOf(face, 2)))
  }

  /** The vertex calls the face loop makes for faces 0 .. n-1 under a given behind-camera test. */
  function CallsFor(front: (int, int) -> bool, n: nat): seq<VertexCall> {
    if n == 0 then []
    else CallsFor(front, n - 1) + FaceCalls(n - 1, RunLength(front, n - 1))
  }

  /** The vertex calls made for faces 0 .. n-1. */
  function ExpectedCalls(u: Uniforms, g: Transforms, mesh: Mesh, n: nat): seq<VertexCall> {
    CallsFor(Front(u, g, mesh), n)
  }

  /** The rasterizer calls made for faces 0 .. n-1. */
  function ExpectedDraws(u: Uniforms, g: Transforms, mesh: Mesh, n: nat): seq<TriangleCall> {
    if n == 0 then []
    else if Accepted(u, g, mesh, n - 1) then
      ExpectedDraws(u, g, mesh, n - 1) +
        [TriangleCall(n - 1, FaceScreen(u, g, mesh, n - 1), FaceVaryings(u, mesh, n - 1))]
    else
      ExpectedDraws(u, g, mesh, n - 1)
  }

  /** Some call in `draws` rasterizes `face`. */
  predicate Drawn(draws: seq<TriangleCall>, face: int) {
    exists i :: 0 <= i < |draws| && draws[i].face == face
  }

  /** A face is drawn iff it is one of the first n and all its corners are in front. */
  lemma {:induction false} DrawnIffAccepted(u: Uniforms, g: Transforms, mesh: Mesh, n: nat, face: int)
    ensures Drawn(ExpectedDraws(u, g, mesh, n), face) <==> 0 <= face < n && Accepted(u, g, mesh, face)
  {
    if n > 0 {
      DrawnIffAccepted(u, g, mesh, n - 1, face);
      var prev := ExpectedDraws(u, g, mesh, n - 1);
      var all := ExpectedDraws(u, g, mesh, n);
      if Accepted(u, g, mesh, n - 1) {
        var last := TriangleCall(n - 1, FaceScreen(u, g, mesh, n - 1), FaceVaryings(u, mesh, n - 1));
        assert all == prev + [last];
        DrawnAppend(prev, last, face);
        assert Drawn(all, face) <==> Drawn(prev, face) || face == n - 1;
      } else {
        assert all == prev;
      }
    }
  }

  /** Appending one call adds exactly that call's face to the drawn ones. */
  lemma DrawnAppend(draws: seq<TriangleCall>, last: TriangleCall, face: int)
    ensures Drawn(draws + [last], face) <==> Drawn(draws, face) || last.face == face
  {
    var all := draws + [last];
    if Drawn(all, face) {
      var i :| 0 <= i < |all| && all[i].face == face;
      if i < |draws| {
        assert draws[i] == all[i];
      }
    }
    if Drawn(draws, face) {
      var i :| 0 <= i < |draws| && draws[i].face == face;
      assert all[i] == draws[i];
    }
    if last.face == face {
      assert all[|draws|] == last;
    }
  }

  /** The drawn faces lie in 0 .. n-1 and strictly increase. */
  predicate FacesAscendBelow(draws: seq<TriangleCall>, n: int) {
    && (forall i :: 0 <= i < |draws| ==> 0 <= draws[i].face < n)
    && (forall i, j :: 0 <= i < j < |draws| ==> draws[i].face < draws[j].face)
  }

  lemma AscendAppend(draws: seq<TriangleCall>, last: TriangleCall, n: int)
    requires FacesAscendBelow(draws, last.face) && 0 <= last.face < n
    ensures FacesAscendBelow(draws + [last], n)
  {
    var all := draws + [last];
    forall i, j | 0 <= i < j < |all|
      ensures all[i].face < all[j].face
    {
      if j == |draws| {
        assert all[i] == draws[i];
      } else {
        assert all[i] == draws[i] && all[j] == draws[j];
      }
    }
    forall i | 0 <= i < |all|
      ensures 0 <= all[i].face < n
    {
      if i < |draws| {
        assert all[i] == draws[i];
      }
    }
  }

  /**
   The faces handed to `triangle()` lie below `n` and strictly increase, so
   no face is drawn twice: with `DrawnIffAccepted`, every accepted face is
   drawn exactly once.
   */
  lemma {:induction false} DrawnFacesAscend(u: Uniforms, g: Transforms, mesh: Mesh, n: nat)
    ensures FacesAscendBelow(ExpectedDraws(u, g, mesh, n), n)
  {
    if n > 0 {
      DrawnFacesAscend(u, g, mesh, n - 1);
      var prev := ExpectedDraws(u, g, mesh, n - 1);
      if Accepted(u, g, mesh, n - 1) {
        var last := TriangleCall(n - 1, FaceScreen(u, g, mesh, n - 1), FaceVaryings(u, mesh, n - 1));
        assert ExpectedDraws(u, g, mesh, n) == prev + [last];
        AscendAppend(prev, last, n);
      } else {
        assert ExpectedDraws(u, g, mesh, n) == prev;
      }
    }
  }

  /** At most one draw per face, so the count never exceeds the number of faces. */
  lemma {:induction false} DrawsAtMostFaces(u: Uniforms, g: Transforms, mesh: Mesh, n: nat)
    ensures |ExpectedDraws(u, g, mesh, n)| <= n
  {
    if n > 0 {
      DrawsAtMostFaces(u, g, mesh, n - 1);
    }
  }

  /** Every corner of `face` before `corner` passed the behind-camera test. */
  predicate EarlierInFront(u: Uniforms, g: Transforms, mesh: Mesh, face: int, corner: int) {
    forall i :: 0 <= i < corner ==> InFront(u, g, mesh, face, i)
  }

  /** A face's corner loop runs on corner k iff k < 3 and every earlier corner was in front. */
  lemma CornersRunIff(u: Uniforms, g: Transforms, mesh: Mesh, face: int, corner: int)
    ensures 0 <= corner < CornersRun(u, g, mesh, face) <==>
      0 <= corner < 3 && EarlierInFront(u, g, mesh, face, corner)
  {
  }

  /**
   For any behind-camera test, corner k of a face is run iff the face is
   among the first n and every earlier corner of it passed the test.
   */
  lemma {:induction false} CallsForIff(front: (int, int) -> bool, n: nat, face: int, corner: int)
    ensures VertexCall(face, corner) in CallsFor(front, n) <==>
      0 <= face < n && 0 <= corner < 3 && forall i :: 0 <= i < corner ==> front(face, i)
  {
    if n > 0 {
      CallsForIff(front, n - 1, face, corner);
      var run := RunLength(front, n - 1);
      assert CallsFor(front, n) == CallsFor(front, n - 1) + FaceCalls(n - 1, run);
      FaceCallsMember(n - 1, run, face, corner);
    }
  }

  /**
   Corner k of a face is run iff the face is among the first n and every
   earlier corner of it was in front: processing stops at the first corner
   behind the camera.
   */
  lemma CallIffEarlierCornersInFront(u: Uniforms, g: Transforms, mesh: Mesh, n: nat, face: int, corner: int)
    ensures VertexCall(face, corner) in ExpectedCalls(u, g, mesh, n) <==>
      0 <= face < n && 0 <= corner < 3 && EarlierInFront(u, g, mesh, face, corner)
  {
    CallsForIff(Front(u, g, mesh), n, face, corner);
    forall i | 0 <= i < corner
      ensures Front(u, g, mesh)(face, i) == InFront(u, g, mesh, face, i)
    {
    }
  }

  /** The calls of one face are exactly its first n corners. */
  lemma FaceCallsMember(face: int, n: nat, f: int, c: int)
    ensures VertexCall(f, c) in FaceCalls(face, n) <==> f == face && 0 <= c < n
  {
    var s := FaceCalls(face, n);
    if f == face && 0 <= c < n {
      assert s[c] == VertexCall(f, c);
    }
  }

  /** Two tuples of corners with equal slots are equal. */
  lemma CornersExt<T>(a: Corners<T>, b: Corners<T>)
    requires forall i :: 0 <= i < 3 ==> a.At(i) == b.At(i)
    ensures a == b
  {
    assert a.At(0) == b.At(0) && a.At(1) == b.At(1) && a.At(2) == b.At(2);
  }

  /**
   The inner loop for one face: corners 0, 1, 2 in turn, stopping after the
   first whose result has `w <= 0`. When all three pass, the screen
   coordinates and the shader's varyings are exactly the face's own,
   whatever the shader held before.
   */
  method RunCorners(sh: PhongShader, g: Transforms, mesh: Mesh, j: int)
    returns (shader: PhongShader, screen: Corners<Vec4>, valid: bool, faceCalls: seq<VertexCall>)
    ensures shader.uniforms == sh.uniforms
    ensures faceCalls == FaceCalls(j, CornersRun(sh.uniforms, g, mesh, j))
    ensures valid <==> Accepted(sh.uniforms, g, mesh, j)
    ensures valid ==> screen == FaceScreen(sh.uniforms, g, mesh, j)
    ensures valid ==> shader.varyings == FaceVaryings(sh.uniforms, mesh, j)
  {
    var u := sh.uniforms;
    shader := sh;
    // `screen_coords` starts uninitialised; only fully written arrays reach `triangle()`.
    var zero := Vec4(0.0, 0.0, 0.0, 0.0);
    screen := Corners(zero, zero, zero);
    valid := true;
    faceCalls := [];
    var k := 0;
    while k < 3
      invariant 0 <= k <= 3
      invariant shader.uniforms == u
      invariant forall i :: 0 <= i < k ==> InFront(u, g, mesh, j, i)
      invariant forall i :: 0 <= i < k ==>
        && screen.At(i) == ScreenPosition(u, g, mesh, j, i)
        && shader.varyings.tri.At(i) == CornerPosition(u, mesh, j, i)
        && shader.varyings.nrm.At(i) == CornerNormal(u, mesh, j, i)
        && shader.varyings.uv.At(i) == mesh.uvOf(j, i)
      invariant faceCalls == FaceCalls(j, k)
    {
      var out := Vertex(shader, g, mesh, j, k);
      shader := out.shader;
      screen := screen.Set(k, out.position);
      faceCalls := faceCalls + [VertexCall(j, k)];
      assert FaceCalls(j, k) + [VertexCall(j, k)] == FaceCalls(j, k + 1);
      if out.position.w <= 0.0 {
        valid := false;
        break;
      }
      k := k + 1;
    }
    if valid {
      CornersExt(screen, FaceScreen(u, g, mesh, j));
      CornersExt(shader.varyings.tri, FaceVaryings(u, mesh, j).tri);
      CornersExt(shader.varyings.nrm, FaceVaryings(u, mesh, j).nrm);
      CornersExt(shader.varyings.uv, FaceVaryings(u, mesh, j).uv);
    }
  }

  /** One pass of the face loop extends the expected calls and draws by that face's share. */
  lemma FaceStep(u: Uniforms, g: Transforms, mesh: Mesh, j: nat, valid: bool, screen: Corners<Vec4>,
                 varyings: Varyings, faceCalls: seq<VertexCall>)
    requires faceCalls == FaceCalls(j, CornersRun(u, g, mesh, j))
    requires valid <==> Accepted(u, g, mesh, j)
    requires valid ==> screen == FaceScreen(u, g, mesh, j) && varyings == FaceVaryings(u, mesh, j)
    ensures ExpectedCalls(u, g, mesh, j + 1) == ExpectedCalls(u, g, mesh, j) + faceCalls
    ensures valid ==> ExpectedDraws(u, g, mesh, j + 1) == ExpectedDraws(u, g, mesh, j) + [TriangleCall(j, screen, varyings)]
    ensures !valid ==> ExpectedDraws(u, g, mesh, j + 1) == ExpectedDraws(u, g, mesh, j)
  {
    assert CallsFor(Front(u, g, mesh), j + 1) ==
      CallsFor(Front(u, g, mesh), j) + FaceCalls(j, RunLength(Front(u, g, mesh), j));
  }

  /**
   The face loop of the entry point. `triangle()` receives each accepted
   face with the screen coordinates of its three corners and a shader whose
   varyings all come from that face; `rendered_faces` counts those calls.
   */
  method RenderFaces(sh: PhongShader, g: Transforms, mesh: Mesh)
    returns (renderedFaces: nat, draws: seq<TriangleCall>, calls: seq<VertexCall>)
    ensures draws == ExpectedDraws(sh.uniforms, g, mesh, mesh.nfaces)
    ensures calls == ExpectedCalls(sh.uniforms, g, mesh, mesh.nfaces)
    ensures renderedFaces == |draws| <= mesh.nfaces
  {
    var u := sh.uniforms;
    var shader := sh;
    renderedFaces, draws, calls := 0, [], [];
    var j := 0;
    while j < mesh.nfaces
      invariant 0 <= j <= mesh.nfaces
      invariant shader.uniforms == u
      invariant draws == ExpectedDraws(u, g, mesh, j)
      invariant calls == ExpectedCalls(u, g, mesh, j)
      invariant renderedFaces == |draws|
    {
      var screen, valid, faceCalls;
      shader, screen, valid, faceCalls := RunCorners(shader, g, mesh, j);
      FaceStep(u, g, mesh, j, valid, screen, shader.varyings, faceCalls);
      calls := calls + faceCalls;
      if valid {
        draws := draws + [TriangleCall(j, screen, shader.varyings)];
        renderedFaces := renderedFaces + 1;
      }
      j := j + 1;
    }
    DrawsAtMostFaces(u, g, mesh, mesh.nfaces);
  }
}
