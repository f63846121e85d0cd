/**
  WaterSurface: a square tile of animated water that follows the camera.

  The tile is a grid of (R+1) x (R+1) vertices whose heights are sampled
  from Perlin noise. Its wave parameters are changed through setters that
  clamp the request and ignore changes smaller than 1e-4. Each update
  advances the time, recentres the tile when the focus has moved more than
  5 units, rebuilds the whole mesh when it is dirty, and then recomputes
  every height and normal in place. Buffer uploads and draws are GL effects
  left abstract; the vertex and index buffers are the CPU-side sequences.
 */
module WaterSurface {
  import opened Vectors
  import Perlin
  import opened WaterGrid

  /** The header's initial values. */
  const DefaultResolution: int := 96
  const DefaultExtent: real := 120.0
  const DefaultAmplitude: real := 0.1
  const DefaultFrequency: real := 0.35
  const DefaultSpeed: real := 0.6
  const DefaultHeightOffset: real := -1.5

  /** The setters' bounds and the change threshold. */
  const MinAmplitude: real := 0.005
  const MinFrequency: real := 0.001
  const MinTileSize: real := 20.0
  const MaxTileSize: real := 400.0
  const Tolerance: real := 0.0001

  /** The tile is recentred when the focus is more than this far from its centre. */
  const RecentreDistance: real := 5.0

  datatype Vertex = Vertex(position: Vec3, normal: Vec3, texCoord: Vec2)

  datatype Surface = Surface(
    enabled: bool,
    needsRebuild: bool,
    center: Vec2,
    extent: real,
    resolution: int,
    amplitude: real,
    frequency: real,
    speed: real,
    heightOffset: real,
    time: real,
    indexCount: int,
    vertices: seq<Vertex>,
    indices: seq<int>)

  /** The fields that fix where and how the tile is sampled. */
  datatype Tile = Tile(
    center: Vec2, extent: real, resolution: int,
    amplitude: real, frequency: real, speed: real, heightOffset: real, time: real)

  function TileOf(s: Surface): Tile
  {
    Tile(s.center, s.extent, s.resolution, s.amplitude, s.frequency, s.speed, s.heightOffset, s.time)
  }

  /** The ranges the setters keep the parameters in; the resolution is fixed and positive. */
  predicate Domain(s: Surface)
  {
    && s.resolution >= 1
    && s.amplitude >= MinAmplitude
    && s.frequency >= MinFrequency
    && MinTileSize <= s.extent <= MaxTileSize
  }

  /** The buffers as rebuild leaves them. */
  predicate Built(s: Surface)
  {
    && s.resolution >= 1
    && |s.vertices| == VertexCount(s.resolution)
    && s.indices == Topology(s.resolution)
    && s.indexCount == |s.indices|
  }

  /** Every vertex index update touches exists unless the mesh is marked for a rebuild. */
  predicate Valid(s: Surface)
  {
    Domain(s) && (s.needsRebuild || Built(s))
  }

  /**
    WaterSurface(): enabled, dirty, centred at the origin at time zero, with
    no buffers yet. The header's defaults already lie in the setters' ranges,
    and its resolution gives 9409 vertices and 55296 indices.
   */
  function NewSurface(): (s: Surface)
    ensures Valid(s)
    ensures s.enabled && s.needsRebuild
    ensures s.center == Vec2(0.0, 0.0) && s.time == 0.0
    ensures s.indexCount == 0 && |s.vertices| == 0 && |s.indices| == 0
    ensures VertexCount(s.resolution) == 9409 && IndexCount(s.resolution) == 55296
  {
    Surface(true, true, Vec2(0.0, 0.0), DefaultExtent, DefaultResolution,
            DefaultAmplitude, DefaultFrequency, DefaultSpeed, DefaultHeightOffset, 0.0,
            0, [], [])
  }

  /**
    The common tail of every setter: a request closer than the tolerance to
    the current value is refused, anything else is stored. Either way the
    value held afterwards is within the tolerance of the request.
   */
  function Adjust(current: real, requested: real): (r: (bool, real))
    ensures r.0 <==> Abs(requested - current) >= Tolerance
    ensures !r.0 ==> r.1 == current
    ensures Abs(r.1 - requested) < Tolerance
  {
    if Abs(requested - current) < Tolerance then (false, current) else (true, requested)
  }

  /** Asking again for the same value is refused and changes nothing. */
  lemma AdjustSettles(current: real, requested: real)
    ensures Adjust(Adjust(current, requested).1, requested) == (false, Adjust(current, requested).1)
  {
  }

  /** std::clamp on reals. */
  function ClampReal(v: real, lo: real, hi: real): (r: real)
    requires lo <= hi
    ensures lo <= r <= hi
    ensures lo <= v <= hi ==> r == v
    ensures v < lo ==> r == lo
    ensures v > hi ==> r == hi
  {
    if v < lo then lo else if hi < v then hi else v
  }

  /** setAmplitude: the request is floored at 0.005. */
  function SetAmplitude(s: Surface, value: real): (r: (bool, Surface))
    ensures var v := Max(MinAmplitude, value);
            && (r.0 <==> Abs(v - s.amplitude) >= Tolerance)
            && (r.0 ==> r.1 == s.(amplitude := v))
            && (!r.0 ==> r.1 == s)
    ensures r.1.amplitude >= MinAmplitude || r.1.amplitude == s.amplitude
  {
    var (changed, v) := Adjust(s.amplitude, Max(MinAmplitude, value));
    (changed, s.(amplitude := v))
  }

  /** setFrequency: the request is floored at 0.001. */
  function SetFrequency(s: Surface, value: real): (r: (bool, Surface))
    ensures var v := Max(MinFrequency, value);
            && (r.0 <==> Abs(v - s.frequency) >= Tolerance)
            && (r.0 ==> r.1 == s.(frequency := v))
            && (!r.0 ==> r.1 == s)
    ensures r.1.frequency >= MinFrequency || r.1.frequency == s.frequency
  {
    var (changed, v) := Adjust(s.frequency, Max(MinFrequency, value));
    (changed, s.(frequency := v))
  }

  /** setSpeed: any speed, including negative ones. */
  function SetSpeed(s: Surface, value: real): (r: (bool, Surface))
    ensures r.0 <==> Abs(value - s.speed) >= Tolerance
    ensures r.0 ==> r.1 == s.(speed := value)
    ensures !r.0 ==> r.1 == s
  {
    var (changed, v) := Adjust(s.speed, value);
    (changed, s.(speed := v))
  }

  /** setTileSize: the request is clamped to [20, 400], and an accepted change marks the mesh dirty. */
  function SetTileSize(s: Surface, value: real): (r: (bool, Surface))
    ensures var v := ClampReal(value, MinTileSize, MaxTileSize);
            && (r.0 <==> Abs(v - s.extent) >= Tolerance)
            && (r.0 ==> r.1 == s.(extent := v, needsRebuild := true))
            && (!r.0 ==> r.1 == s)
    ensures MinTileSize <= r.1.extent <= MaxTileSize || r.1.extent == s.extent
  {
    var (changed, v) := Adjust(s.extent, ClampReal(value, MinTileSize, MaxTileSize));
    if changed then (true, s.(extent := v, needsRebuild := true)) else (false, s)
  }

  /** setHeightOffset: any offset. */
  function SetHeightOffset(s: Surface, value: real): (r: (bool, Surface))
    ensures r.0 <==> Abs(value - s.heightOffset) >= Tolerance
    ensures r.0 ==> r.1 == s.(heightOffset := value)
    ensures !r.0 ==> r.1 == s
  {
    var (changed, v) := Adjust(s.heightOffset, value);
    (changed, s.(heightOffset := v))
  }

  datatype Param = Amplitude | Frequency | Speed | TileSize | HeightOffset

  /** The five setters behind one name, for statements about all of them. */
  function Set(s: Surface, p: Param, value: real): (r: (bool, Surface))
    ensures r.1.enabled == s.enabled && r.1.center == s.center && r.1.time == s.time
    ensures r.1.resolution == s.resolution && r.1.vertices == s.vertices
    ensures r.1.indices == s.indices && r.1.indexCount == s.indexCount
  {
    match p
    case Amplitude => SetAmplitude(s, value)
    case Frequency => SetFrequency(s, value)
    case Speed => SetSpeed(s, value)
    case TileSize => SetTileSize(s, value)
    case HeightOffset => SetHeightOffset(s, value)
  }

  /** Every setter keeps the parameters in their ranges and keeps the buffers usable. */
  lemma SetPreservesValid(s: Surface, p: Param, value: real)
    requires Valid(s)
    ensures Valid(Set(s, p, value).1)
  {
  }

  /** Only an accepted tile-size change marks the mesh dirty; no setter clears the flag. */
  lemma OnlyTileSizeDirties(s: Surface, p: Param, value: real)
    ensures var (changed, r) := Set(s, p, value);
            r.needsRebuild <==> s.needsRebuild || (p == TileSize && changed)
  {
  }

  /** A setter called twice with the same value refuses the second call and leaves the surface as the first left it. */
  lemma RepeatedSetIsRefused(s: Surface, p: Param, value: real)
    ensures var r := Set(s, p, value).1;
            Set(r, p, value) == (false, r)
  {
    match p
    case Amplitude => AdjustSettles(s.amplitude, Max(MinAmplitude, value));
    case Frequency => AdjustSettles(s.frequency, Max(MinFrequency, value));
    case Speed => AdjustSettles(s.speed, value);
    case TileSize => AdjustSettles(s.extent, ClampReal(value, MinTileSize, MaxTileSize));
    case HeightOffset => AdjustSettles(s.heightOffset, value);
  }

  /** The grid spacing, extent / resolution; positive for every tile size the setters allow. */
  function Step(t: Tile): (r: real)
    requires t.resolution >= 1
    ensures t.extent > 0.0 ==> r > 0.0
  {
    t.extent / (t.resolution as real)
  }

  /** The tile-local coordinate of grid line i; lines 0 and R are the tile's two edges. */
  function LocalCoord(t: Tile, i: int): real
    requires t.resolution >= 1
  {
    -0.5 * t.extent + Step(t) * (i as real)
  }

  /** The grid spans the tile exactly, centred on its origin. */
  lemma GridSpansTile(t: Tile)
    requires t.resolution >= 1
    ensures LocalCoord(t, 0) == -0.5 * t.extent
    ensures LocalCoord(t, t.resolution) == 0.5 * t.extent
  {
    var R := t.resolution as real;
    assert Step(t) * R == t.extent;
  }

  /**
    The surface's noise generator, a PerlinNoise over table m. The water
    model takes the generator as a function so that its proofs need not look
    inside the noise.
   */
  type Noise = (real, real, real) -> real

  function PerlinNoise(m: seq<int>): Noise
    requires |m| == Perlin.TableSize
  {
    (x, y, z) => Perlin.Noise(m, x, y, z)
  }

  /** sampleHeight: noise at (x * frequency, time * speed, z * frequency), scaled by the amplitude. */
  function SampleHeight(t: Tile, noise: Noise, worldX: real, worldZ: real): real
  {
    noise(worldX * t.frequency, t.time * t.speed, worldZ * t.frequency) * t.amplitude
  }

  /** The sampled height at grid point (x, z) of the tile around its centre. */
  function GridHeight(t: Tile, noise: Noise, x: int, z: int): real
    requires t.resolution >= 1
  {
    SampleHeight(t, noise, t.center.x + LocalCoord(t, x), t.center.y + LocalCoord(t, z))
  }

  /** A vertex position: tile-local x and z, height lifted by the offset. */
  function Position(t: Tile, noise: Noise, x: int, z: int): Vec3
    requires t.resolution >= 1
  {
    Vec3(LocalCoord(t, x), GridHeight(t, noise, x, z) + t.heightOffset, LocalCoord(t, z))
  }

  /** The texture coordinate (x / R, z / R); the grid covers the unit square. */
  function TexCoord(R: int, x: int, z: int): (r: Vec2)
    requires R >= 1
    ensures 0 <= x <= R && 0 <= z <= R ==> 0.0 <= r.x <= 1.0 && 0.0 <= r.y <= 1.0
    ensures x == 0 && z == 0 ==> r == Vec2(0.0, 0.0)
    ensures x == R && z == R ==> r == Vec2(1.0, 1.0)
  {
    UnitFraction(x, R);
    UnitFraction(z, R);
    Vec2(x as real / R as real, z as real / R as real)
  }

  lemma UnitFraction(i: int, R: int)
    requires R >= 1
    ensures 0 <= i <= R ==> 0.0 <= i as real / R as real <= 1.0
  {
    if 0 <= i <= R {
      var q := i as real / R as real;
      assert q * (R as real) == i as real;
    }
  }

  const Up: Vec3 := Vec3(0.0, 1.0, 0.0)

  /** What rebuild writes at grid point (x, z): the sampled position, an upward normal and the texture coordinate. */
  function BuiltVertex(t: Tile, noise: Noise): (int, int) -> Vertex
    requires t.resolution >= 1
  {
    (x, z) => Vertex(Position(t, noise, x, z), Up, TexCoord(t.resolution, x, z))
  }

  /** The heights update samples, one per grid point. */
  function HeightAt(t: Tile, noise: Noise): (int, int) -> real
    requires t.resolution >= 1
  {
    (x, z) => GridHeight(t, noise, x, z)
  }

  function Heights(t: Tile, noise: Noise): (r: seq<real>)
    requires t.resolution >= 1
    ensures |r| == VertexCount(t.resolution)
  {
    RowMajor(t.resolution + 1, VertexCount(t.resolution), HeightAt(t, noise))
  }

  /** What update writes at grid point (x, z): the sampled position, the normal from the heights and the texture coordinate. */
  function RefreshedVertex(t: Tile, noise: Noise, heights: seq<real>): (int, int) -> Vertex
    requires t.resolution >= 1 && |heights| == VertexCount(t.resolution)
  {
    (x, z) => Vertex(Position(t, noise, x, z), Normal(t.resolution, x, z, Step(t), heights), TexCoord(t.resolution, x, z))
  }

  /** Every vertex holds what update computes for its grid point from the current parameters. */
  predicate Refreshed(s: Surface, noise: Noise)
    requires s.resolution >= 1
  {
    s.vertices == RowMajor(s.resolution + 1, VertexCount(s.resolution),
                           RefreshedVertex(TileOf(s), noise, Heights(TileOf(s), noise)))
  }

  /**
    rebuild: a fresh vertex grid and index buffer; the counts are (R+1)^2 and
    6R^2, indexCount is the index buffer's size, and the mesh is clean.
   */
  method Rebuild(s: Surface, noise: Noise) returns (r: Surface)
    requires Domain(s)
    ensures Valid(r) && Built(r) && !r.needsRebuild
    ensures |r.vertices| == VertexCount(s.resolution) && |r.indices| == IndexCount(s.resolution)
    ensures r.indexCount == |r.indices|
    ensures r.vertices == RowMajor(s.resolution + 1, VertexCount(s.resolution), BuiltVertex(TileOf(s), noise))
    ensures r == s.(needsRebuild := false, vertices := r.vertices, indices := r.indices, indexCount := r.indexCount)
  {
    var R := s.resolution;
    var vertices := FillGrid(R + 1, R + 1, BuiltVertex(TileOf(s), noise));
    var indices := EmitIndices(R);
    r := s.(vertices := vertices, indices := indices, indexCount := |indices|, needsRebuild := false);
  }

  /** Grid point (x, z) of a rebuilt mesh. */
  lemma RebuiltVertexAt(t: Tile, noise: Noise, x: int, z: int)
    requires t.resolution >= 1
    requires 0 <= x <= t.resolution && 0 <= z <= t.resolution
    ensures var v := RowMajor(t.resolution + 1, VertexCount(t.resolution), BuiltVertex(t, noise));
            && 0 <= GridIndex(t.resolution + 1, x, z) < |v|
            && v[GridIndex(t.resolution + 1, x, z)] == Vertex(Position(t, noise, x, z), Up, TexCoord(t.resolution, x, z))
  {
    RowMajorAtPoint(t.resolution + 1, t.resolution + 1, BuiltVertex(t, noise), x, z);
  }

  /** The recentre rule: glm::distance(newCenter, center) > 5, compared in squares. */
  predicate Far(center: Vec2, focus: Vec3)
  {
    DistanceSquared(Vec2(focus.x, focus.z), center) > RecentreDistance * RecentreDistance
  }

  /** The head of update: time advances and a distant focus moves the tile and marks the mesh dirty. */
  function Advance(s: Surface, focus: Vec3, dt: real): (r: Surface)
    requires Valid(s)
    ensures Valid(r)
    ensures r.time == s.time + dt
    ensures r.center == if Far(s.center, focus) then Vec2(focus.x, focus.z) else s.center
    ensures r.needsRebuild <==> s.needsRebuild || Far(s.center, focus)
    ensures r == s.(time := r.time, center := r.center, needsRebuild := r.needsRebuild)
  {
    var t := s.(time := s.time + dt);
    if Far(s.center, focus) then t.(center := Vec2(focus.x, focus.z), needsRebuild := true) else t
  }

  /**
    update: a disabled surface is left alone. Otherwise time advances by dt,
    the tile jumps to the focus when that is more than 5 units away, the mesh
    is rebuilt exactly when it was dirty or the tile moved, and every vertex
    then gets its current height and normal. Parameters other than time and
    centre do not change.
   */
  method Update(s: Surface, noise: Noise, focus: Vec3, dt: real) returns (r: Surface, rebuilt: bool)
    requires Valid(s)
    ensures !s.enabled ==> r == s && !rebuilt
    ensures s.enabled ==> r.time == s.time + dt
    ensures s.enabled ==> r.center == if Far(s.center, focus) then Vec2(focus.x, focus.z) else s.center
    ensures rebuilt <==> s.enabled && (s.needsRebuild || Far(s.center, focus))
    ensures s.enabled ==> Valid(r) && Built(r) && !r.needsRebuild
    ensures s.enabled && !rebuilt ==> r.indices == s.indices && r.indexCount == s.indexCount
    ensures s.enabled ==> Refreshed(r, noise)
    ensures s.enabled ==> r == s.(time := r.time, center := r.center, needsRebuild := false,
                                  vertices := r.vertices, indices := r.indices, indexCount := r.indexCount)
  {
    if !s.enabled {
      return s, false;
    }
    var t := Advance(s, focus, dt);
    rebuilt := t.needsRebuild;
    if t.needsRebuild {
      t := Rebuild(t, noise);
    }
    r := Refresh(t, noise);
  }

  /**
    The tail of update: every height is resampled, then every vertex gets
    its position, texture coordinate and a normal from the new heights. The
    index buffer and the parameters are untouched.
   */
  method Refresh(s: Surface, noise: Noise) returns (r: Surface)
    requires Domain(s) && Built(s) && !s.needsRebuild
    ensures Valid(r) && Built(r) && !r.needsRebuild
    ensures r == s.(vertices := r.vertices)
    ensures Refreshed(r, noise)
  {
    var R := s.resolution;
    var heights := FillGrid(R + 1, R + 1, HeightAt(TileOf(s), noise));
    var vertices := FillGrid(R + 1, R + 1, RefreshedVertex(TileOf(s), noise, heights));
    r := s.(vertices := vertices);
    RefreshedFrom(s, noise, heights, vertices);
  }

  lemma RefreshedFrom(s: Surface, noise: Noise, heights: seq<real>, vertices: seq<Vertex>)
    requires Domain(s) && Built(s)
    requires heights == RowMajor(s.resolution + 1, (s.resolution + 1) * (s.resolution + 1), HeightAt(TileOf(s), noise))
    requires vertices == RowMajor(s.resolution + 1, (s.resolution + 1) * (s.resolution + 1),
                                  RefreshedVertex(TileOf(s), noise, heights))
    ensures Built(s.(vertices := vertices)) && Refreshed(s.(vertices := vertices), noise)
  {
    var r := s.(vertices := vertices);
    assert TileOf(r) == TileOf(s);
    assert heights == Heights(TileOf(s), noise);
  }

  /** Grid point (x, z) after an update: the sampled position, the normal from the heights, whose y component is positive, and the texture coordinate. */
  lemma RefreshedVertexAt(t: Tile, noise: Noise, x: int, z: int)
    requires t.resolution >= 1 && t.extent > 0.0
    requires 0 <= x <= t.resolution && 0 <= z <= t.resolution
    ensures var v := RowMajor(t.resolution + 1, VertexCount(t.resolution), RefreshedVertex(t, noise, Heights(t, noise)));
            && 0 <= GridIndex(t.resolution + 1, x, z) < |v|
            && v[GridIndex(t.resolution + 1, x, z)]
               == Vertex(Position(t, noise, x, z), Normal(t.resolution, x, z, Step(t), Heights(t, noise)), TexCoord(t.resolution, x, z))
            && v[GridIndex(t.resolution + 1, x, z)].normal.y > 0.0
  {
    var f := RefreshedVertex(t, noise, Heights(t, noise));
    RowMajorAtPoint(t.resolution + 1, t.resolution + 1, f, x, z);
    var n := Normal(t.resolution, x, z, Step(t), Heights(t, noise));
    assert n.y > 0.0;
  }
}
