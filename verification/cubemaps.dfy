/**
  RS_Cubemap: the six-face capture table and cube mesh used to convert an
  equirectangular image into a cubemap, the per-face conversion pass, and the
  move-only ownership of the cubemap's texture name.
 */
module Cubemaps {
  import opened Results
  import opened Vectors
  import opened Ownership
  import opened RenderState

  datatype Cubemap = Cubemap(name: nat, resolution: int)

  /** Default resolution of a converted environment cubemap. */
  const DefaultResolution: int := 512

  /** A cube face as a camera sees it: the direction it looks along and its up vector. */
  datatype FaceAxes = FaceAxes(forward: IVec3, up: IVec3)

  /** The capture views, in GL_TEXTURE_CUBE_MAP_POSITIVE_X + i order. */
  function CaptureViews(): seq<FaceAxes>
  {
    [ FaceAxes(IVec3(1, 0, 0), IVec3(0, -1, 0)),
      FaceAxes(IVec3(-1, 0, 0), IVec3(0, -1, 0)),
      FaceAxes(IVec3(0, 1, 0), IVec3(0, 0, 1)),
      FaceAxes(IVec3(0, -1, 0), IVec3(0, 0, -1)),
      FaceAxes(IVec3(0, 0, 1), IVec3(0, -1, 0)),
      FaceAxes(IVec3(0, 0, -1), IVec3(0, -1, 0)) ]
  }

  /** The GL cube-face order: +X, -X, +Y, -Y, +Z, -Z. */
  function FaceDirections(): seq<IVec3>
  {
    [IVec3(1, 0, 0), IVec3(-1, 0, 0), IVec3(0, 1, 0), IVec3(0, -1, 0), IVec3(0, 0, 1), IVec3(0, 0, -1)]
  }

  /** A face table every look-at can use: one entry per face in GL order, each up an axis perpendicular to its forward. */
  ghost predicate WellFormedFaces(faces: seq<FaceAxes>)
  {
    && |faces| == 6
    && (forall i :: 0 <= i < 6 ==> faces[i].forward == FaceDirections()[i])
    && (forall i :: 0 <= i < 6 ==> IsUnitAxis(faces[i].up) && IDot(faces[i].forward, faces[i].up) == 0)
  }

  lemma CaptureViewsWellFormed()
    ensures WellFormedFaces(CaptureViews())
  {
  }

  /** The capture cube: 36 vertices, two triangles per face (108 floats in the source's vertex buffer). */
  function CubeVertices(): seq<IVec3>
  {
    [ IVec3(-1, 1, -1), IVec3(-1, -1, -1), IVec3(1, -1, -1), IVec3(1, -1, -1), IVec3(1, 1, -1), IVec3(-1, 1, -1),
      IVec3(-1, -1, 1), IVec3(-1, -1, -1), IVec3(-1, 1, -1), IVec3(-1, 1, -1), IVec3(-1, 1, 1), IVec3(-1, -1, 1),
      IVec3(1, -1, -1), IVec3(1, -1, 1), IVec3(1, 1, 1), IVec3(1, 1, 1), IVec3(1, 1, -1), IVec3(1, -1, -1),
      IVec3(-1, -1, 1), IVec3(-1, 1, 1), IVec3(1, 1, 1), IVec3(1, 1, 1), IVec3(1, -1, 1), IVec3(-1, -1, 1),
      IVec3(-1, 1, -1), IVec3(1, 1, -1), IVec3(1, 1, 1), IVec3(1, 1, 1), IVec3(-1, 1, 1), IVec3(-1, 1, -1),
      IVec3(-1, -1, -1), IVec3(-1, -1, 1), IVec3(1, -1, -1), IVec3(1, -1, -1), IVec3(-1, -1, 1), IVec3(1, -1, 1) ]
  }

  /** The vertex count of glDrawArrays(GL_TRIANGLES, 0, 36). */
  const CubeDrawCount: int := 36

  /** A face plane of the cube: the axis it is orthogonal to and the side it lies on. */
  datatype Plane = Plane(axis: nat, sign: int)

  function Coord(p: IVec3, axis: nat): int
  {
    if axis == 0 then p.x else if axis == 1 then p.y else p.z
  }

  predicate IsCorner(p: IVec3)
  {
    (p.x == 1 || p.x == -1) && (p.y == 1 || p.y == -1) && (p.z == 1 || p.z == -1)
  }

  /** The face plane each group of six vertices (two triangles) lies in, in buffer order: -Z, -X, +X, +Z, +Y, -Y. */
  function GroupPlanes(): seq<Plane>
  {
    [Plane(2, -1), Plane(0, -1), Plane(0, 1), Plane(2, 1), Plane(1, 1), Plane(1, -1)]
  }

  /**
    The cube mesh is 36 corner vertices (12 triangles) and the draw count
    covers exactly them; each consecutive pair of triangles lies in one face
    plane of the cube, and the six pairs cover six distinct faces.
   */
  lemma CubeMeshShape()
    ensures |CubeVertices()| == CubeDrawCount == 3 * 12
    ensures forall p :: p in CubeVertices() ==> IsCorner(p)
    ensures forall k :: 0 <= k < |CubeVertices()| ==> Coord(CubeVertices()[k], GroupPlanes()[k / 6].axis) == GroupPlanes()[k / 6].sign
    ensures forall g, h :: 0 <= g < h < 6 ==> GroupPlanes()[g] != GroupPlanes()[h]
  {
    var c := CubeVertices();
    var planes := GroupPlanes();
    forall k | 0 <= k < |c|
      ensures Coord(c[k], planes[k / 6].axis) == planes[k / 6].sign
    {
      if k < 6 {
      } else if k < 12 {
      } else if k < 18 {
      } else if k < 24 {
      } else if k < 30 {
      } else {
      }
    }
  }

  /** One face drawn by the conversion pass. */
  datatype FaceRender = FaceRender(face: nat, view: FaceAxes, vertexCount: int, viewport: Viewport, framebuffer: nat)

  /**
    convertEquirectToCubemap: a temporary capture framebuffer is generated and
    bound, the viewport is set to the cubemap resolution, faces 0..5 are drawn
    exactly once each, in order, each with its capture view and the whole
    cube; afterwards the default framebuffer is bound, the capture framebuffer
    is deleted (no framebuffer name outlives the call) and the saved viewport
    is restored.
   */
  method ConvertFaces(state: GlState, fbos: Pool, resolution: int) returns (renders: seq<FaceRender>, r: GlState, fbos': Pool)
    requires PoolOk(fbos)
    ensures PoolOk(fbos')
    ensures |renders| == 6
    ensures forall i :: 0 <= i < 6 ==>
              renders[i] == FaceRender(i, CaptureViews()[i], CubeDrawCount, SquareViewport(resolution), renders[0].framebuffer)
    ensures renders[0].framebuffer !in fbos.live && renders[0].framebuffer != fbos.none
    ensures fbos'.live == fbos.live && fbos'.released == fbos.released + multiset{renders[0].framebuffer}
    ensures r == state.(framebuffer := 0)
  {
    var saved := state.viewport;
    var (capture, p) := Acquire(fbos);
    var s := state.(framebuffer := capture);
    s := s.(viewport := SquareViewport(resolution));
    renders := [];
    var i := 0;
    while i < 6
      invariant 0 <= i <= 6
      invariant s == state.(viewport := SquareViewport(resolution), framebuffer := capture)
      invariant |renders| == i
      invariant forall k :: 0 <= k < i ==>
                  renders[k] == FaceRender(k, CaptureViews()[k], CubeDrawCount, SquareViewport(resolution), capture)
    {
      renders := renders + [FaceRender(i, CaptureViews()[i], CubeDrawCount, s.viewport, s.framebuffer)];
      i := i + 1;
    }
    s := s.(framebuffer := 0);
    fbos' := Release(p, capture);
    r := s.(viewport := saved);
  }

  /**
    The equirectangular constructor: generates the cubemap's texture name,
    then converts all six faces into it.
   */
  method FromEquirect(w: World, fbos: Pool, state: GlState, resolution: int)
    returns (renders: seq<FaceRender>, w': World, fbos': Pool, r: GlState)
    requires Valid(w) && PoolOk(fbos)
    ensures Valid(w') && PoolOk(fbos')
    ensures |w'.cubemaps| == |w.cubemaps| + 1 && w'.cubemaps[..|w.cubemaps|] == w.cubemaps
    ensures w'.cubemaps[|w.cubemaps|].resolution == resolution
    ensures w'.cubemaps[|w.cubemaps|].name !in w.pool.live && w'.cubemaps[|w.cubemaps|].name != Invalid
    ensures |renders| == 6 && forall i :: 0 <= i < 6 ==> renders[i].face == i && renders[i].view == CaptureViews()[i]
    ensures fbos'.live == fbos.live
    ensures r == state.(framebuffer := 0)
  {
    w' := Create(w, resolution);
    renders, r, fbos' := ConvertFaces(state, fbos, resolution);
  }

  /** createDepthCubemap: one fresh texture name at the given resolution. */
  function CreateDepth(p: Pool, resolution: int): (r: (Cubemap, Pool))
    requires PoolOk(p)
    ensures r.0.resolution == resolution
    ensures r.0.name != p.none && r.0.name !in p.live && r.0.name !in p.released
    ensures r.1.live == p.live + {r.0.name} && r.1.released == p.released && r.1.none == p.none
    ensures PoolOk(r.1)
  {
    var (h, p') := Acquire(p);
    (Cubemap(h, resolution), p')
  }

  /** The move assignment between two distinct cubemaps: `dst` takes name and resolution, `src`'s name becomes INVALID. */
  function MoveValue(dst: Cubemap, src: Cubemap): (r: (Cubemap, Cubemap))
    ensures r.0 == src
    ensures r.1 == src.(name := Invalid)
  {
    (src, src.(name := Invalid))
  }

  function OptName(c: Option<Cubemap>): nat
  {
    if c.Some? then c.value.name else Invalid
  }

  /** Move assignment of `std::optional<RS_Cubemap>`; the destination ends with the source's name and the source with none. */
  function MoveOptional(dst: Option<Cubemap>, src: Option<Cubemap>): (r: (Option<Cubemap>, Option<Cubemap>))
    ensures OptName(r.0) == OptName(src) && OptName(r.1) == Invalid
    ensures r.0 == src
    ensures r.1.Some? <==> src.Some?
  {
    match (dst, src)
    case (Some(d), Some(s)) => var (d', s') := MoveValue(d, s); (Some(d'), Some(s'))
    case (None, Some(s)) => (Some(s), Some(s.(name := Invalid)))
    case (_, None) => (None, None)
  }

  /**
    A set of RS_Cubemap objects in slots sharing the texture-name pool. This is the
    cubemaps' view of GL's single texture-name space; Textures.World is the textures' view.
   */
  datatype World = World(pool: Pool, cubemaps: seq<Cubemap>)

  function Names(cs: seq<Cubemap>): (r: seq<nat>)
    ensures |r| == |cs| && forall i :: 0 <= i < |cs| ==> r[i] == cs[i].name
  {
    seq(|cs|, i requires 0 <= i < |cs| => cs[i].name)
  }

  ghost predicate Valid(w: World)
  {
    w.pool.none == Invalid && Owns(w.pool, Names(w.cubemaps))
  }

  /** A new cubemap (converted or depth) holding a fresh name. */
  function Create(w: World, resolution: int): (r: World)
    requires Valid(w)
    ensures Valid(r)
    ensures |r.cubemaps| == |w.cubemaps| + 1 && r.cubemaps[..|w.cubemaps|] == w.cubemaps
    ensures r.cubemaps[|w.cubemaps|].resolution == resolution
    ensures r.cubemaps[|w.cubemaps|].name != Invalid && r.cubemaps[|w.cubemaps|].name !in w.pool.live
    ensures r.pool.live == w.pool.live + {r.cubemaps[|w.cubemaps|].name}
  {
    var o := Ownership.Create(Owned(w.pool, Names(w.cubemaps)));
    var cs := w.cubemaps + [Cubemap(o.names[|w.cubemaps|], resolution)];
    assert Names(cs) == o.names;
    World(o.pool, cs)
  }

  /** The move constructor: the new cubemap takes the name and resolution, and the source becomes INVALID. */
  function MoveConstruct(w: World, src: nat): (r: World)
    requires Valid(w) && src < |w.cubemaps|
    ensures Valid(r)
    ensures r.pool == w.pool
    ensures r.cubemaps == (w.cubemaps + [w.cubemaps[src]])[src := w.cubemaps[src].(name := Invalid)]
  {
    var o := Ownership.MoveConstruct(Owned(w.pool, Names(w.cubemaps)), src);
    var cs := (w.cubemaps + [w.cubemaps[src]])[src := w.cubemaps[src].(name := Invalid)];
    assert Names(cs) == o.names;
    World(o.pool, cs)
  }

  /** The move assignment: a no-op on self; otherwise deletes the destination's valid name, transfers, and invalidates the source. */
  function MoveAssign(w: World, dst: nat, src: nat): (r: World)
    requires Valid(w) && dst < |w.cubemaps| && src < |w.cubemaps|
    ensures Valid(r)
    ensures dst == src ==> r == w
    ensures dst != src ==> r.cubemaps == w.cubemaps[dst := w.cubemaps[src]][src := w.cubemaps[src].(name := Invalid)]
    ensures dst != src && w.cubemaps[dst].name == Invalid ==> r.pool == w.pool
    ensures dst != src && w.cubemaps[dst].name != Invalid ==> ReleasedOnly(w.pool, r.pool, w.cubemaps[dst].name)
  {
    if dst == src then w
    else
      var o := Ownership.MoveAssign(Owned(w.pool, Names(w.cubemaps)), dst, src);
      var (d', s') := MoveValue(w.cubemaps[dst], w.cubemaps[src]);
      var cs := w.cubemaps[dst := d'][src := s'];
      assert Names(cs) == o.names;
      World(o.pool, cs)
  }

  /** The destructor deletes only a valid name. */
  function Destroy(w: World, i: nat): (r: World)
    requires Valid(w) && i < |w.cubemaps|
    ensures Valid(r)
    ensures r.cubemaps == w.cubemaps[i := w.cubemaps[i].(name := Invalid)]
    ensures w.cubemaps[i].name == Invalid ==> r.pool == w.pool
    ensures w.cubemaps[i].name != Invalid ==> ReleasedOnly(w.pool, r.pool, w.cubemaps[i].name)
  {
    var o := Ownership.Destroy(Owned(w.pool, Names(w.cubemaps)), i);
    var cs := w.cubemaps[i := w.cubemaps[i].(name := Invalid)];
    assert Names(cs) == o.names;
    World(o.pool, cs)
  }

  datatype Op = CreateOp(resolution: int) | MoveConstructOp(src: nat) | MoveAssignOp(dst: nat, src: nat) | DestroyOp(i: nat)

  function Step(w: World, op: Op): (r: World)
    requires Valid(w)
    ensures Valid(r)
    ensures w.pool.released <= r.pool.released
  {
    match op
    case CreateOp(res) => Create(w, res)
    case MoveConstructOp(s) => if s < |w.cubemaps| then MoveConstruct(w, s) else w
    case MoveAssignOp(d, s) => if d < |w.cubemaps| && s < |w.cubemaps| then MoveAssign(w, d, s) else w
    case DestroyOp(i) => if i < |w.cubemaps| then Destroy(w, i) else w
  }

  /** Across any sequence of creations, moves and destructions each cubemap name is held at most once and deleted at most once. */
  function Run(w: World, ops: seq<Op>): (r: World)
    requires Valid(w)
    ensures Valid(r)
    ensures w.pool.released <= r.pool.released
    ensures forall h :: h in r.pool.released ==> r.pool.released[h] == 1 && h !in r.pool.live
    decreases |ops|
  {
    if |ops| == 0 then w else Run(Step(w, ops[0]), ops[1..])
  }
}
