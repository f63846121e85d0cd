/**
  RS_Scene: the render passes as transitions of the GL state.

  `Draw` is the multi-pass lighting pass (one additive pass per light),
  `DrawEnvironment` and `DrawSkybox` the environment-map passes, and
  `RenderShadowMaps` the depth passes that fill each light's shadow map or
  shadow cubemap. Shader binds, uniforms, matrices and draw calls are
  recorded, not executed: every pass returns the GL state it leaves behind
  and a trace of what it did.
 */
module Scenes {
  import opened Results
  import opened Vectors
  import opened RenderState
  import opened Lights
  import Cubemaps
  import Models

  /** Texture units the lighting pass binds a light's shadow map and shadow cubemap to. */
  const ShadowMapUnit: nat := 5
  const ShadowCubemapUnit: nat := 6

  /** The render toggles the passes read (including the two shadow switches). */
  datatype Settings = Settings(
    enableColorTextures: bool,
    enableNormalTextures: bool,
    enableMetallicTextures: bool,
    enableToneMapping: bool,
    enableGammaCorrection: bool,
    enableShadows: bool,
    enableShadowPCF: bool)

  /** The scene: only the number of cameras matters to the passes. */
  datatype Scene = Scene(
    models: seq<Models.Model>,
    lights: seq<Light>,
    environment: Option<Cubemaps.Cubemap>,
    envBrightness: real,
    cameraCount: nat)

  /** Every model index, in order: what a loop over all models draws. */
  function Indices(n: nat): (r: seq<nat>)
    ensures |r| == n && forall i :: 0 <= i < n ==> r[i] == i
  {
    seq(n, i => i)
  }

  // ---------------------------------------------------------------------------
  // Lighting pass

  /** The shadow texture a lighting pass binds for one light. */
  datatype ShadowBinding =
    | NoShadow
    | ShadowMapBound(unit: nat, texture: nat)
    | ShadowCubemapBound(unit: nat, cubemap: nat)

  /** Spot lights bind their 2D shadow map to unit 5, point lights their cubemap to unit 6, and only with shadows on. */
  function Binding(settings: Settings, l: Light): (b: ShadowBinding)
    ensures b != NoShadow <==>
              settings.enableShadows && ((l.kind == Spot && l.shadowMap.Some?) || (l.kind == Point && l.cubeMap.Some?))
    ensures b.ShadowMapBound? ==> l.kind == Spot && b.unit == ShadowMapUnit && b.texture == l.shadowMap.value.name
    ensures b.ShadowCubemapBound? ==> l.kind == Point && b.unit == ShadowCubemapUnit && b.cubemap == l.cubeMap.value.name
  {
    if !settings.enableShadows then NoShadow
    else if l.kind == Spot && l.shadowMap.Some? then ShadowMapBound(ShadowMapUnit, l.shadowMap.value.name)
    else if l.kind == Point && l.cubeMap.Some? then ShadowCubemapBound(ShadowCubemapUnit, l.cubeMap.value.name)
    else NoShadow
  }

  /** One additive lighting pass: the light, the type code uploaded for it, its shadow binding, the GL state it draws with and the models it draws. */
  datatype LightPass = LightPass(light: nat, typeCode: int, binding: ShadowBinding, state: GlState, models: seq<nat>)

  /** The state of the lighting passes: additive blending, depth EQUAL, depth writes off. */
  function Additive(g: GlState): (r: GlState)
    ensures r.blend && r.blendFunc == OneOne && r.depthFunc == Equal && !r.depthMask
    ensures r.depthTest == g.depthTest && r.cull == g.cull && r.viewport == g.viewport && r.framebuffer == g.framebuffer
  {
    g.(blend := true, blendFunc := OneOne, depthFunc := Equal, depthMask := false)
  }

  /** The state after the lighting passes: blending off, depth LESS and writes on; the blend factors are not touched. */
  function AfterLighting(g: GlState): (r: GlState)
    ensures !r.blend && r.depthFunc == Less && r.depthMask
    ensures r.blendFunc == g.blendFunc
    ensures r.depthTest == g.depthTest && r.cull == g.cull && r.viewport == g.viewport && r.framebuffer == g.framebuffer
  {
    g.(blend := false, depthFunc := Less, depthMask := true)
  }

  /**
    draw: nothing without a camera; with lights, every light in order gets one
    additive pass that draws every model, and the state is set around the
    passes only when there is at least one light.
   */
  method Draw(s: Scene, settings: Settings, state: GlState) returns (r: GlState, passes: seq<LightPass>)
    ensures s.cameraCount == 0 ==> r == state && passes == []
    ensures s.cameraCount > 0 ==> |passes| == |s.lights|
    ensures s.lights == [] ==> r == state
    ensures s.cameraCount > 0 && s.lights != [] ==> r == AfterLighting(Additive(state))
    ensures forall i :: 0 <= i < |passes| ==>
              && passes[i].light == i
              && passes[i].typeCode == TypeCode(s.lights[i].kind)
              && passes[i].binding == Binding(settings, s.lights[i])
              && passes[i].state == Additive(state)
              && passes[i].models == Indices(|s.models|)
  {
    if s.cameraCount == 0 {
      return state, [];
    }
    if s.lights == [] {
      return state, [];
    }
    var g := Additive(state);
    passes := [];
    var i := 0;
    while i < |s.lights|
      invariant 0 <= i <= |s.lights|
      invariant g == Additive(state)
      invariant |passes| == i
      invariant forall k :: 0 <= k < i ==>
                  passes[k] == LightPass(k, TypeCode(s.lights[k].kind), Binding(settings, s.lights[k]), Additive(state), Indices(|s.models|))
    {
      var l := s.lights[i];
      passes := passes + [LightPass(i, TypeCode(l.kind), Binding(settings, l), g, Indices(|s.models|))];
      i := i + 1;
    }
    r := AfterLighting(g);
  }

  /**
    From the standard state (blend off, LESS, writes on) the lighting passes
    restore everything except the blend factors, which they leave at ONE, ONE.
    So the state is exactly restored when the factors were already ONE, ONE,
    and it is not on the first frame, when GL still holds its initial ONE, ZERO.
   */
  lemma DrawRestoresStandardState(g: GlState)
    requires !g.blend && g.depthFunc == Less && g.depthMask
    ensures AfterLighting(Additive(g)) == g.(blendFunc := OneOne)
    ensures AfterLighting(Additive(g)) == g <==> g.blendFunc == OneOne
  {
  }

  // ---------------------------------------------------------------------------
  // Environment passes

  /** The environment-lighting pass: the cubemap bound to unit 0, the brightness uploaded, every model drawn. */
  datatype EnvironmentPass = EnvironmentPass(unit0: nat, brightness: real, models: seq<nat>)

  /** drawEnvironment: needs a camera and an environment cubemap; it never changes the GL state. */
  function DrawEnvironment(s: Scene, settings: Settings, state: GlState): (r: (GlState, Option<EnvironmentPass>))
    ensures r.0 == state
    ensures r.1.Some? <==> s.cameraCount > 0 && s.environment.Some?
    ensures r.1.Some? ==>
              && r.1.value.unit0 == s.environment.value.name
              && r.1.value.brightness == s.envBrightness
              && r.1.value.models == Indices(|s.models|)
  {
    if s.cameraCount == 0 || s.environment.None? then (state, None)
    else (state, Some(EnvironmentPass(s.environment.value.name, s.envBrightness, Indices(|s.models|))))
  }

  /** The skybox draw: the cubemap on unit 0, the vertex array, the depth function in force and the vertex count. */
  datatype SkyboxDraw = SkyboxDraw(cubemap: nat, vertexArray: nat, depthFunc: DepthFunc, count: int)

  /**
    drawSkybox: needs a camera and an environment cubemap; draws the 36-vertex
    cube under LEQUAL (so the sky at maximum depth passes) and then sets LESS,
    whatever the depth function was before.
   */
  function DrawSkybox(s: Scene, state: GlState, vertexArray: nat): (r: (GlState, Option<SkyboxDraw>))
    ensures r.1.Some? <==> s.cameraCount > 0 && s.environment.Some?
    ensures r.1.None? ==> r.0 == state
    ensures r.1.Some? ==>
              && r.1.value.depthFunc == LessEqual
              && r.1.value.count == Cubemaps.CubeDrawCount
              && r.1.value.cubemap == s.environment.value.name
              && r.1.value.vertexArray == vertexArray
              && r.0 == state.(depthFunc := Less)
  {
    if s.cameraCount == 0 || s.environment.None? then (state, None)
    else
      var during := state.(depthFunc := LessEqual);
      var draw := SkyboxDraw(s.environment.value.name, vertexArray, during.depthFunc, 36);
      (during.(depthFunc := Less), Some(draw))
  }

  /** From the standard depth function the skybox pass leaves the state exactly as it found it, and a second skybox draws the same. */
  lemma SkyboxPreservesStandardState(s: Scene, state: GlState, vertexArray: nat)
    requires state.depthFunc == Less
    ensures DrawSkybox(s, state, vertexArray).0 == state
    ensures DrawSkybox(s, DrawSkybox(s, state, vertexArray).0, vertexArray) == DrawSkybox(s, state, vertexArray)
  {
  }

  // ---------------------------------------------------------------------------
  // Shadow passes

  /** The point-light face table of the shadow pass: the look-at direction and up vector of each cube face. */
  function PointFaces(): seq<Cubemaps.FaceAxes>
  {
    [ Cubemaps.FaceAxes(IVec3(1, 0, 0), IVec3(0, -1, 0)),
      Cubemaps.FaceAxes(IVec3(-1, 0, 0), IVec3(0, -1, 0)),
      Cubemaps.FaceAxes(IVec3(0, 1, 0), IVec3(0, 0, 1)),
      Cubemaps.FaceAxes(IVec3(0, -1, 0), IVec3(0, 0, -1)),
      Cubemaps.FaceAxes(IVec3(0, 0, 1), IVec3(0, -1, 0)),
      Cubemaps.FaceAxes(IVec3(0, 0, -1), IVec3(0, -1, 0)) ]
  }

  /** The shadow table covers +X, -X, +Y, -Y, +Z, -Z in order with perpendicular ups, and is the capture table of the environment conversion. */
  lemma PointFacesWellFormed()
    ensures Cubemaps.WellFormedFaces(PointFaces())
    ensures PointFaces() == Cubemaps.CaptureViews()
  {
  }

  /**
    The up vector of the spot look-at: +Z when the direction is within about 8
    degrees of vertical (|y| of the normalised direction above 0.99), +Y
    otherwise. Written on the unnormalised direction: y^2 > 0.99^2 |d|^2.
   */
  function SpotUp(d: Vec3): (up: Vec3)
    ensures up == Vec3(0.0, 0.0, 1.0) || up == Vec3(0.0, 1.0, 0.0)
    ensures !Degenerate(d) ==> Cross(d, up) != Vec3(0.0, 0.0, 0.0)
  {
    if d.y * d.y > 0.9801 * LengthSquared(d) then
      var up := Vec3(0.0, 0.0, 1.0);
      assert Cross(d, up) == Vec3(d.y, -d.x, 0.0);
      up
    else
      var up := Vec3(0.0, 1.0, 0.0);
      assert Cross(d, up) == Vec3(-d.z, 0.0, d.x);
      up
  }

  /** The squared test of `SpotUp` is the source's test on the normalised direction, for the direction's exact length. */
  lemma SpotUpIsNormalisedTest(d: Vec3, length: real)
    requires length > 0.0 && length * length == LengthSquared(d)
    ensures SpotUp(d) == Vec3(0.0, 0.0, 1.0) <==> Abs(d.y / length) > 0.99
  {
    DivideCompare(d.y, length, 0.99);
    SquareOutside(d.y, 0.99 * length);
    assert (0.99 * length) * (0.99 * length) == 0.9801 * (length * length);
  }

  /** Dividing by a positive length: y / len lies outside [-c, c] exactly when y lies outside [-c len, c len]. */
  lemma DivideCompare(y: real, len: real, c: real)
    requires len > 0.0
    ensures y / len > c <==> y > c * len
    ensures y / len < -c <==> y < -c * len
  {
    var q := y / len;
    assert q * len == y;
    if q > c {
      assert q * len > c * len;
    } else {
      assert q * len <= c * len;
    }
    if q < -c {
      assert q * len < -c * len;
    } else {
      assert q * len >= -c * len;
    }
  }

  /** a^2 > m^2 exactly when a lies outside [-m, m]. */
  lemma SquareOutside(a: real, m: real)
    requires m > 0.0
    ensures a * a > m * m <==> (a > m || a < -m)
  {
    if a > m {
      assert a * a > m * a;
      assert m * a > m * m;
    } else if a < -m {
      assert a * a == (-a) * (-a);
      assert (-a) * (-a) > m * (-a);
      assert m * (-a) > m * m;
    } else if a >= 0.0 {
      assert a * a <= m * a;
      assert m * a <= m * m;
    } else {
      assert a * a <= m * (-a);
      assert m * (-a) <= m * m;
    }
  }




  /** The spot look-at target: the stored target, or the position plus the (fallback) direction when they coincide. */
  function SpotTarget(l: Light): (t: Vec3)
    ensures !Degenerate(Sub(l.target, l.position)) ==> t == l.target
    ensures Degenerate(Sub(l.target, l.position)) ==> t == Add(l.position, Down)
    ensures !Degenerate(Sub(t, l.position))
  {
    var t := l.target;
    if Degenerate(Sub(t, l.position)) then
      var t' := Add(l.position, GetDirection(l));
      assert Sub(t', l.position) == Down;
      t'
    else t
  }

  /** What the depth pass did for one light. */
  datatype ShadowPass =
    | Skipped
    | SpotPass(light: nat, state: GlState, texture: nat, view: Transform, models: seq<nat>)
    | CubePass(light: nat, state: GlState, cubemap: nat, transforms: seq<Transform>, models: seq<nat>)

  /** The six face transforms of a point light, in face order. */
  function FaceTransforms(l: Light): (ts: seq<Transform>)
    ensures |ts| == 6
    ensures forall i :: 0 <= i < 6 ==>
              ts[i] == FaceTransform(l.position, Cubemaps.FaceDirections()[i], PointFaces()[i].up, l.near, l.far)
    ensures forall i :: 0 <= i < 6 ==> IDot(ts[i].forward, ts[i].faceUp) == 0 && IsUnitAxis(ts[i].faceUp)
  {
    PointFacesWellFormed();
    seq(6, i requires 0 <= i < 6 => FaceTransform(l.position, PointFaces()[i].forward, PointFaces()[i].up, l.near, l.far))
  }

  /** The depth state of the shadow passes: depth test on and front faces culled. */
  function ShadowState(g: GlState): (r: GlState)
    ensures r.depthTest && r.cull == Front
    ensures r == g.(depthTest := true, cull := Front)
  {
    g.(depthTest := true, cull := Front)
  }

  /**
    The depth pass of one light, given the state before it: a spot light with a
    shadow map renders into its shadow framebuffer with a 1024 square viewport
    and stores its light-space transform; a point light with a cubemap renders
    into its cubemap framebuffer at the cubemap's resolution and stores its six
    face transforms; any other light is skipped and nothing changes.
   */
  function ShadowPassFor(i: nat, l: Light, g: GlState, modelCount: nat): (r: (ShadowPass, Light, GlState))
    ensures r.0.Skipped? <==> !((l.kind == Spot && l.shadowMap.Some?) || (l.kind == Point && l.cubeMap.Some?))
    ensures r.0.Skipped? ==> r.1 == l && r.2 == g
    ensures r.0.SpotPass? ==>
              && l.kind == Spot
              && r.2 == g.(viewport := SquareViewport(ShadowMapSize), framebuffer := l.shadowFbo)
              && r.0 == SpotPass(i, r.2, l.shadowMap.value.name, r.1.lightSpace, Indices(modelCount))
              && r.1 == l.(lightSpace := SpotTransform(l.position, SpotTarget(l), SpotUp(GetDirection(l)), l.spotFov, l.near, l.far))
    ensures r.0.CubePass? ==>
              && l.kind == Point
              && r.2 == g.(viewport := SquareViewport(l.cubeMap.value.resolution), framebuffer := l.cubeFbo)
              && r.0 == CubePass(i, r.2, l.cubeMap.value.name, FaceTransforms(l), Indices(modelCount))
              && r.1 == l.(shadowTransforms := FaceTransforms(l))
  {
    if l.kind == Spot && l.shadowMap.Some? then
      var g' := g.(viewport := SquareViewport(ShadowMapSize), framebuffer := l.shadowFbo);
      var direction := GetDirection(l);
      var view := SpotTransform(l.position, SpotTarget(l), SpotUp(direction), l.spotFov, l.near, l.far);
      (SpotPass(i, g', l.shadowMap.value.name, view, Indices(modelCount)), l.(lightSpace := view), g')
    else if l.kind == Point && l.cubeMap.Some? then
      var res := l.cubeMap.value.resolution;
      var g' := g.(viewport := Viewport(0, 0, res, res), framebuffer := l.cubeFbo);
      var ts := FaceTransforms(l);
      (CubePass(i, g', l.cubeMap.value.name, ts, Indices(modelCount)), l.(shadowTransforms := ts), g')
    else (Skipped, l, g)
  }

  /** Whether the shadow passes run at all. */
  predicate ShadowsRun(s: Scene, settings: Settings)
  {
    settings.enableShadows && s.lights != [] && s.models != []
  }

  /** The state after the shadow passes: default framebuffer, back faces culled, the saved viewport, depth writes on; the depth test stays on. */
  function AfterShadows(g: GlState, saved: Viewport): (r: GlState)
    ensures r.framebuffer == 0 && r.cull == Back && r.viewport == saved && r.depthMask
    ensures r.blend == g.blend && r.blendFunc == g.blendFunc && r.depthTest == g.depthTest && r.depthFunc == g.depthFunc
  {
    g.(framebuffer := 0, cull := Back, viewport := saved, depthMask := true)
  }

  /**
    renderShadowMaps: returns at once unless shadows are on and there are
    lights and models; otherwise each light in order gets its depth pass, and
    only the light-space transform (spot) or face transforms (point) of each
    light change.
   */
  method RenderShadowMaps(s: Scene, settings: Settings, state: GlState)
    returns (r: GlState, lights: seq<Light>, passes: seq<ShadowPass>)
    ensures !ShadowsRun(s, settings) ==> r == state && lights == s.lights && passes == []
    ensures ShadowsRun(s, settings) ==> r == AfterShadows(ShadowState(state), state.viewport)
    ensures ShadowsRun(s, settings) ==> |passes| == |lights| == |s.lights|
    ensures |lights| == |s.lights|
    ensures forall i :: 0 <= i < |passes| ==>
              && var (p, l, _) := ShadowPassFor(i, s.lights[i], ShadowState(state), |s.models|);
              && passes[i] == p && lights[i] == l
  {
    if !ShadowsRun(s, settings) {
      return state, s.lights, [];
    }
    var g := ShadowState(state);
    lights := [];
    passes := [];
    var i := 0;
    while i < |s.lights|
      invariant 0 <= i <= |s.lights|
      invariant g.depthTest && g.cull == Front
      invariant g == ShadowState(state).(viewport := g.viewport, framebuffer := g.framebuffer)
      invariant |lights| == i && |passes| == i
      invariant forall k :: 0 <= k < i ==>
                  var (p, l, _) := ShadowPassFor(k, s.lights[k], ShadowState(state), |s.models|);
                  passes[k] == p && lights[k] == l
    {
      var step := ShadowPassFor(i, s.lights[i], g, |s.models|);
      PassIgnoresPrior(i, s.lights[i], g, ShadowState(state), |s.models|);
      passes := passes + [step.0];
      lights := lights + [step.1];
      g := step.2;
      i := i + 1;
    }
    r := AfterShadows(g, state.viewport);
  }

  /**
    A depth pass sets the viewport and framebuffer it draws with, so what it
    records does not depend on the viewport and framebuffer left by the
    previous light.
   */
  lemma PassIgnoresPrior(i: nat, l: Light, g: GlState, h: GlState, modelCount: nat)
    requires g.(viewport := h.viewport, framebuffer := h.framebuffer) == h
    ensures ShadowPassFor(i, l, g, modelCount).0 == ShadowPassFor(i, l, h, modelCount).0
    ensures ShadowPassFor(i, l, g, modelCount).1 == ShadowPassFor(i, l, h, modelCount).1
    ensures ShadowPassFor(i, l, g, modelCount).2 == h.(viewport := ShadowPassFor(i, l, g, modelCount).2.viewport, framebuffer := ShadowPassFor(i, l, g, modelCount).2.framebuffer)
  {
  }
}
