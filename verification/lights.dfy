/**
  RS_Light: a point or spot light with shadow parameters, the clamping rules
  of its setters, the fallbacks for degenerate targets and directions, and
  the move-only ownership of its two shadow framebuffers and two depth
  textures (a 2D shadow map and a depth cubemap, both always created so the
  light type can change at run time).
 */
module Lights {
  import opened Results
  import opened Vectors
  import opened Ownership
  import Textures
  import Cubemaps

  /** RS_LightType with its integer values. */
  datatype LightType = Point | Spot

  function TypeCode(t: LightType): (code: int)
    ensures code == 0 <==> t == Point
    ensures code == 1 <==> t == Spot
  {
    match t
    case Point => 0
    case Spot => 1
  }

  /** Side of the spot light's square shadow map. */
  const ShadowMapSize: int := 1024
  /** Side of each face of the point light's depth cubemap. */
  const CubemapSize: int := 512

  const MinNear: real := 0.01
  /** The least gap kept between the shadow near and far planes. */
  const RangeMargin: real := 0.05
  const DefaultNear: real := 0.1
  const DefaultFar: real := 50.0

  /** Lengths below this count as zero for targets and directions. */
  const DirectionEpsilon: real := 0.001

  const Pi: real := 3.141592653589793

  /** glm::radians. */
  function Radians(degrees: real): real
  {
    degrees * Pi / 180.0
  }

  const MinSpotFov: real := Radians(5.0)
  const MaxSpotFov: real := Radians(170.0)
  const DefaultSpotFov: real := Radians(45.0)

  /**
    The matrices a light stores, kept symbolic: the identity, the zero matrix
    of a default-initialised array, a spot light's perspective-times-look-at,
    and one face of a point light's cube (perspective of 90 degrees times a
    look-at along an axis).
   */
  datatype Transform =
    | Identity
    | Zero
    | SpotTransform(eye: Vec3, target: Vec3, up: Vec3, fov: real, near: real, far: real)
    | FaceTransform(eye: Vec3, forward: IVec3, faceUp: IVec3, near: real, far: real)

  datatype Light = Light(
    position: Vec3,
    color: Vec3,
    intensity: real,
    spotFov: real,
    kind: LightType,
    shadowMap: Option<Textures.Texture>,
    cubeMap: Option<Cubemaps.Cubemap>,
    shadowFbo: nat,
    cubeFbo: nat,
    lightSpace: Transform,
    shadowTransforms: seq<Transform>,
    near: real,
    far: real,
    target: Vec3)

  /** The shadow-range invariant: near at least 0.01, far at least 0.05 beyond near. */
  predicate RangeOk(l: Light)
  {
    l.near >= MinNear && l.far >= l.near + RangeMargin
  }

  /** Every member initialiser of the class, before the constructor body runs. */
  function Initialised(position: Vec3, color: Vec3, intensity: real, kind: LightType): (l: Light)
    ensures RangeOk(l)
    ensures l.shadowFbo == NoFramebuffer && l.cubeFbo == NoFramebuffer
    ensures l.shadowMap.None? && l.cubeMap.None?
    ensures l.near == DefaultNear && l.far == DefaultFar && MinSpotFov <= l.spotFov <= MaxSpotFov
  {
    Light(position, color, intensity, DefaultSpotFov, kind, None, None, NoFramebuffer, NoFramebuffer,
          Identity, seq(6, _ => Zero), DefaultNear, DefaultFar, Vec3(0.0, 1.0, 0.0))
  }

  // ---------------------------------------------------------------------------
  // Shadow range

  /** setShadowNearPlane: near := max(0.01, n); far is raised to near + 0.05 exactly when it would not exceed it. */
  function SetShadowNearPlane(l: Light, nearPlane: real): (r: Light)
    ensures r.near >= MinNear
    ensures nearPlane >= MinNear ==> r.near == nearPlane
    ensures nearPlane < MinNear ==> r.near == MinNear
    ensures l.far <= r.near + RangeMargin ==> r.far == r.near + RangeMargin
    ensures l.far > r.near + RangeMargin ==> r.far == l.far
    ensures RangeOk(r)
    ensures r == l.(near := r.near, far := r.far)
  {
    var n := if MinNear < nearPlane then nearPlane else MinNear;
    var f := if l.far <= n + RangeMargin then n + RangeMargin else l.far;
    l.(near := n, far := f)
  }

  /** setShadowFarPlane: far := max(near + 0.05, f); near is untouched. */
  function SetShadowFarPlane(l: Light, farPlane: real): (r: Light)
    ensures r.far >= l.near + RangeMargin
    ensures r.far == farPlane <==> farPlane >= l.near + RangeMargin
    ensures farPlane < l.near + RangeMargin ==> r.far == l.near + RangeMargin
    ensures r == l.(far := r.far)
    ensures RangeOk(l) ==> RangeOk(r)
  {
    l.(far := if l.near + RangeMargin < farPlane then farPlane else l.near + RangeMargin)
  }

  /** setShadowRange: near first, then far. */
  function SetShadowRange(l: Light, nearPlane: real, farPlane: real): (r: Light)
    ensures RangeOk(r)
    ensures r == l.(near := r.near, far := r.far)
    ensures r.near == (if nearPlane >= MinNear then nearPlane else MinNear)
    ensures farPlane >= r.near + RangeMargin ==> r.far == farPlane
    ensures farPlane < r.near + RangeMargin ==> r.far == r.near + RangeMargin
  {
    SetShadowFarPlane(SetShadowNearPlane(l, nearPlane), farPlane)
  }

  datatype RangeOp = NearOp(n: real) | FarOp(f: real) | RangeOfOp(n: real, f: real)

  function ApplyRange(l: Light, op: RangeOp): Light
  {
    match op
    case NearOp(n) => SetShadowNearPlane(l, n)
    case FarOp(f) => SetShadowFarPlane(l, f)
    case RangeOfOp(n, f) => SetShadowRange(l, n, f)
  }

  function ApplyRanges(l: Light, ops: seq<RangeOp>): Light
    decreases |ops|
  {
    if |ops| == 0 then l else ApplyRanges(ApplyRange(l, ops[0]), ops[1..])
  }

  /** Any sequence of near, far and range setters keeps the shadow-range invariant and touches nothing else. */
  lemma {:induction false} RangeSettersPreserve(l: Light, ops: seq<RangeOp>)
    requires RangeOk(l)
    ensures RangeOk(ApplyRanges(l, ops))
    ensures ApplyRanges(l, ops) == l.(near := ApplyRanges(l, ops).near, far := ApplyRanges(l, ops).far)
    decreases |ops|
  {
    if |ops| > 0 {
      RangeSettersPreserve(ApplyRange(l, ops[0]), ops[1..]);
    }
  }

  /** The defaults already satisfy the invariant, so every light satisfies it whatever setters run. */
  lemma DefaultsSatisfyRange()
    ensures DefaultFar >= DefaultNear + RangeMargin && DefaultNear >= MinNear
  {
  }

  // ---------------------------------------------------------------------------
  // Spot cone, target and direction

  /** setSpotFov: std::clamp into [radians(5), radians(170)]. */
  function SetSpotFov(l: Light, radians: real): (r: Light)
    ensures MinSpotFov <= r.spotFov <= MaxSpotFov
    ensures MinSpotFov <= radians <= MaxSpotFov ==> r.spotFov == radians
    ensures radians < MinSpotFov ==> r.spotFov == MinSpotFov
    ensures radians > MaxSpotFov ==> r.spotFov == MaxSpotFov
    ensures r == l.(spotFov := r.spotFov)
  {
    l.(spotFov := if radians < MinSpotFov then MinSpotFov else if MaxSpotFov < radians then MaxSpotFov else radians)
  }

  lemma SetSpotFovIdempotent(l: Light, radians: real)
    ensures SetSpotFov(SetSpotFov(l, radians), SetSpotFov(l, radians).spotFov) == SetSpotFov(l, radians)
  {
  }

  /** True when `v` is shorter than the direction epsilon (`glm::length(v) < 0.001`). */
  predicate Degenerate(v: Vec3)
  {
    LengthSquared(v) < DirectionEpsilon * DirectionEpsilon
  }

  /** setLookAtTarget: a target (nearly) at the light's position is replaced by the point straight below it. */
  function SetLookAtTarget(l: Light, target: Vec3): (r: Light)
    ensures !Degenerate(Sub(r.target, r.position))
    ensures r.target == target <==> !Degenerate(Sub(target, l.position))
    ensures Degenerate(Sub(target, l.position)) ==> r.target == Add(l.position, Down)
    ensures r == l.(target := r.target)
  {
    l.(target := if Degenerate(Sub(target, l.position)) then Add(l.position, Down) else target)
  }

  /**
    getDirection before normalisation: from the position to the target,
    falling back to straight down when they (nearly) coincide. The result is
    never degenerate, so normalising it is always defined.
   */
  function GetDirection(l: Light): (d: Vec3)
    ensures !Degenerate(d)
    ensures !Degenerate(Sub(l.target, l.position)) ==> Add(l.position, d) == l.target
    ensures Degenerate(Sub(l.target, l.position)) ==> d == Down
  {
    var dir := Sub(l.target, l.position);
    if Degenerate(dir) then Down else dir
  }

  /** After setLookAtTarget the direction points at the new target, or straight down in the same degenerate case. */
  lemma DirectionAfterLookAt(l: Light, target: Vec3)
    ensures !Degenerate(Sub(target, l.position)) ==> GetDirection(SetLookAtTarget(l, target)) == Sub(target, l.position)
    ensures Degenerate(Sub(target, l.position)) ==> GetDirection(SetLookAtTarget(l, target)) == Down
  {
  }

  /**
    setDirection with `length` standing for glm::length(direction): a no-op
    for a degenerate direction, otherwise the target becomes position plus
    the normalised direction.
   */
  function SetDirection(l: Light, direction: Vec3, length: real): (r: Light)
    requires length >= 0.0 && length * length == LengthSquared(direction)
    ensures length < DirectionEpsilon ==> r == l
    ensures length >= DirectionEpsilon ==> r == l.(target := r.target)
    ensures length >= DirectionEpsilon ==> Sub(r.target, r.position) == Scale(1.0 / length, direction)
    ensures length >= DirectionEpsilon ==> LengthSquared(Sub(r.target, r.position)) == 1.0
  {
    if length < DirectionEpsilon then l
    else
      var unit := Scale(1.0 / length, direction);
      assert LengthSquared(unit) == (1.0 / length) * (1.0 / length) * (length * length);
      l.(target := Add(l.position, unit))
  }

  /** After a non-degenerate setDirection, getDirection returns the unit vector along that direction. */
  lemma DirectionAfterSetDirection(l: Light, direction: Vec3, length: real)
    requires length >= DirectionEpsilon && length * length == LengthSquared(direction)
    ensures GetDirection(SetDirection(l, direction, length)) == Scale(1.0 / length, direction)
    ensures LengthSquared(GetDirection(SetDirection(l, direction, length))) == 1.0
  {
    var r := SetDirection(l, direction, length);
    assert Sub(r.target, r.position) == Scale(1.0 / length, direction);
  }

  // ---------------------------------------------------------------------------
  // Handle ownership

  /** A std::vector of lights, with the framebuffer-name pool and the texture-name pool they draw on. */
  datatype World = World(fbos: Pool, textures: Pool, lights: seq<Light>)

  function FboPair(l: Light): (nat, nat)
  {
    (l.shadowFbo, l.cubeFbo)
  }

  function TexPair(l: Light): (nat, nat)
  {
    (Textures.OptName(l.shadowMap), Cubemaps.OptName(l.cubeMap))
  }

  /** The two name slots of a light in one of the pools: its framebuffers, or (when `tex`) its textures. */
  function SlotPair(l: Light, tex: bool): (nat, nat)
  {
    if tex then TexPair(l) else FboPair(l)
  }

  /** The names the lights hold in one pool, light i's two slots at 2i and 2i+1. */
  function Slots(ls: seq<Light>, tex: bool): (r: seq<nat>)
    ensures |r| == 2 * |ls|
    decreases |ls|
  {
    if |ls| == 0 then []
    else Slots(ls[..|ls| - 1], tex) + [SlotPair(ls[|ls| - 1], tex).0, SlotPair(ls[|ls| - 1], tex).1]
  }

  function FboNames(ls: seq<Light>): seq<nat>
  {
    Slots(ls, false)
  }

  function TexNames(ls: seq<Light>): seq<nat>
  {
    Slots(ls, true)
  }

  lemma {:induction false} SlotsAt(ls: seq<Light>, tex: bool, i: nat)
    requires i < |ls|
    ensures Slots(ls, tex)[2 * i] == SlotPair(ls[i], tex).0 && Slots(ls, tex)[2 * i + 1] == SlotPair(ls[i], tex).1
    decreases |ls|
  {
    if i < |ls| - 1 {
      var init := ls[..|ls| - 1];
      SlotsAt(init, tex, i);
    }
  }

  lemma SlotsAppend(ls: seq<Light>, tex: bool, l: Light)
    ensures Slots(ls + [l], tex) == Slots(ls, tex) + [SlotPair(l, tex).0, SlotPair(l, tex).1]
  {
    assert (ls + [l])[..|ls|] == ls;
  }

  lemma {:induction false} SlotsUpdate(ls: seq<Light>, tex: bool, i: nat, l: Light)
    requires i < |ls|
    ensures Slots(ls[i := l], tex) == Slots(ls, tex)[2 * i := SlotPair(l, tex).0][2 * i + 1 := SlotPair(l, tex).1]
    decreases |ls|
  {
    var n := |ls| - 1;
    var ls' := ls[i := l];
    if i == n {
      assert ls'[..n] == ls[..n];
    } else {
      assert ls'[..n] == ls[..n][i := l];
      SlotsUpdate(ls[..n], tex, i, l);
    }
  }

  lemma NamesAt(ls: seq<Light>, i: nat)
    requires i < |ls|
    ensures |FboNames(ls)| == 2 * |ls| && |TexNames(ls)| == 2 * |ls|
    ensures FboNames(ls)[2 * i] == ls[i].shadowFbo && FboNames(ls)[2 * i + 1] == ls[i].cubeFbo
    ensures TexNames(ls)[2 * i] == TexPair(ls[i]).0 && TexNames(ls)[2 * i + 1] == TexPair(ls[i]).1
  {
    SlotsAt(ls, false, i);
    SlotsAt(ls, true, i);
  }

  lemma NamesUpdate(ls: seq<Light>, i: nat, l: Light)
    requires i < |ls|
    ensures FboNames(ls[i := l]) == FboNames(ls)[2 * i := l.shadowFbo][2 * i + 1 := l.cubeFbo]
    ensures TexNames(ls[i := l]) == TexNames(ls)[2 * i := TexPair(l).0][2 * i + 1 := TexPair(l).1]
  {
    SlotsUpdate(ls, false, i, l);
    SlotsUpdate(ls, true, i, l);
  }

  lemma NamesAppend(ls: seq<Light>, l: Light)
    ensures FboNames(ls + [l]) == FboNames(ls) + [l.shadowFbo, l.cubeFbo]
    ensures TexNames(ls + [l]) == TexNames(ls) + [TexPair(l).0, TexPair(l).1]
  {
    SlotsAppend(ls, false, l);
    SlotsAppend(ls, true, l);
  }

  /** Every framebuffer and texture name is held by at most one light slot and is alive. */
  ghost predicate Valid(w: World)
  {
    && w.fbos.none == NoFramebuffer
    && w.textures.none == Invalid
    && Owns(w.fbos, FboNames(w.lights))
    && Owns(w.textures, TexNames(w.lights))
  }

  function EmptyWorld(): (w: World)
    ensures Valid(w) && w.lights == []
  {
    World(EmptyPool(NoFramebuffer), EmptyPool(Invalid), [])
  }

  /** The light with its framebuffer names replaced. */
  function Wired(l: Light, shadowFbo: nat, cubeFbo: nat): Light
  {
    l.(shadowFbo := shadowFbo, cubeFbo := cubeFbo)
  }

  /** Wiring a light to the names it already holds changes nothing. */
  lemma RewiredSame(ls: seq<Light>, i: nat)
    requires i < |ls|
    ensures ls[i].shadowFbo == NoFramebuffer && ls[i].cubeFbo == NoFramebuffer ==>
              ls[i := Wired(ls[i], NoFramebuffer, NoFramebuffer)] == ls
  {
  }

  lemma WiredNames(ls: seq<Light>, i: nat, a: nat, b: nat)
    requires i < |ls|
    ensures FboNames(ls[i := Wired(ls[i], a, b)]) == FboNames(ls)[2 * i := a][2 * i + 1 := b]
    ensures TexNames(ls[i := Wired(ls[i], a, b)]) == TexNames(ls)
    ensures FboNames(ls)[2 * i] == ls[i].shadowFbo && FboNames(ls)[2 * i + 1] == ls[i].cubeFbo
  {
    NamesAt(ls, i);
    NamesUpdate(ls, i, Wired(ls[i], a, b));
  }

  /** destroyShadowResources: deletes each framebuffer name that is not 0 and zeroes it; nothing else changes. */
  function DestroyShadowResources(w: World, i: nat): (r: World)
    requires Valid(w) && i < |w.lights|
    ensures Valid(r)
    ensures r.lights == w.lights[i := w.lights[i].(shadowFbo := NoFramebuffer, cubeFbo := NoFramebuffer)]
    ensures r.textures == w.textures
    ensures r.fbos.live == w.fbos.live - {w.lights[i].shadowFbo, w.lights[i].cubeFbo}
    ensures r.fbos.released ==
              w.fbos.released + One(w.lights[i].shadowFbo, NoFramebuffer) + One(w.lights[i].cubeFbo, NoFramebuffer)
    ensures r.fbos.next == w.fbos.next && r.fbos.none == w.fbos.none
    ensures w.lights[i].shadowFbo == NoFramebuffer && w.lights[i].cubeFbo == NoFramebuffer ==> r == w
  {
    WiredNames(w.lights, i, NoFramebuffer, NoFramebuffer);
    var f := DestroyPair(Owned(w.fbos, FboNames(w.lights)), 2 * i, 2 * i + 1);
    var r := World(f.pool, w.textures, w.lights[i := Wired(w.lights[i], NoFramebuffer, NoFramebuffer)]);
    RewiredSame(w.lights, i);
    r
  }

  /** A second destroyShadowResources finds both framebuffers zeroed and does nothing. */
  lemma DestroyShadowResourcesIdempotent(w: World, i: nat)
    requires Valid(w) && i < |w.lights|
    ensures DestroyShadowResources(DestroyShadowResources(w, i), i) == DestroyShadowResources(w, i)
  {
  }

  /**
    initializeShadowResources: destroys first, then generates two fresh
    framebuffer names, so a light holds exactly its two new framebuffers and
    none of its old ones survives.
   */
  function InitializeShadowResources(w: World, i: nat): (r: World)
    requires Valid(w) && i < |w.lights|
    ensures Valid(r)
    ensures r.textures == w.textures
    ensures |r.lights| == |w.lights|
    ensures r.lights == w.lights[i := Wired(w.lights[i], r.lights[i].shadowFbo, r.lights[i].cubeFbo)]
    ensures r.lights[i].shadowFbo != NoFramebuffer && r.lights[i].cubeFbo != NoFramebuffer
    ensures r.lights[i].shadowFbo != r.lights[i].cubeFbo
    ensures r.lights[i].shadowFbo !in w.fbos.live && r.lights[i].shadowFbo !in w.fbos.released
    ensures r.lights[i].cubeFbo !in w.fbos.live && r.lights[i].cubeFbo !in w.fbos.released
    ensures r.fbos.live ==
              w.fbos.live - {w.lights[i].shadowFbo, w.lights[i].cubeFbo} + {r.lights[i].shadowFbo, r.lights[i].cubeFbo}
  {
    WiredNames(w.lights, i, NoFramebuffer, NoFramebuffer);
    var f := ReplacePair(Owned(w.fbos, FboNames(w.lights)), 2 * i, 2 * i + 1);
    WiredNames(w.lights, i, f.names[2 * i], f.names[2 * i + 1]);
    World(f.pool, w.textures, w.lights[i := Wired(w.lights[i], f.names[2 * i], f.names[2 * i + 1])])
  }

  /** The light the constructor body starts from, once both depth textures exist. */
  function Constructed(position: Vec3, color: Vec3, intensity: real, kind: LightType, shadowTex: nat, cubeTex: nat): (l: Light)
    ensures TexPair(l) == (shadowTex, cubeTex) && FboPair(l) == (NoFramebuffer, NoFramebuffer)
  {
    Initialised(position, color, intensity, kind).(
      cubeMap := Some(Cubemaps.Cubemap(cubeTex, CubemapSize)),
      shadowMap := Some(Textures.Texture(shadowTex, ShadowMapSize, ShadowMapSize, 1, false)),
      target := Add(position, Down))
  }

  lemma AppendNames(ls: seq<Light>, l: Light)
    ensures FboNames(ls + [l]) == FboNames(ls) + [l.shadowFbo, l.cubeFbo]
    ensures TexNames(ls + [l]) == TexNames(ls) + [TexPair(l).0, TexPair(l).1]
    ensures |FboNames(ls)| == 2 * |ls| && |TexNames(ls)| == 2 * |ls|
  {
    NamesAppend(ls, l);
  }

  /**
    The constructor RS_Light(position, color, intensity, type): a depth
    cubemap of 512 and a 1024x1024 depth texture are created (in that order),
    the target is placed straight below the light, and both shadow
    framebuffers are generated. The new light is appended; no existing light
    changes.
   */
  function New(w: World, position: Vec3, color: Vec3, intensity: real, kind: LightType): (r: World)
    requires Valid(w)
    ensures Valid(r)
    ensures r.fbos.released == w.fbos.released && r.textures.released == w.textures.released
    ensures w.fbos.released <= r.fbos.released && w.textures.released <= r.textures.released
    ensures |r.lights| == |w.lights| + 1 && r.lights[..|w.lights|] == w.lights
    ensures var l := r.lights[|w.lights|];
              && l.position == position && l.color == color && l.intensity == intensity && l.kind == kind
              && l.spotFov == DefaultSpotFov && l.target == Add(position, Down)
              && l.near == DefaultNear && l.far == DefaultFar && RangeOk(l)
              && l.shadowMap.Some? && l.shadowMap.value.width == ShadowMapSize && l.shadowMap.value.height == ShadowMapSize
              && l.cubeMap.Some? && l.cubeMap.value.resolution == CubemapSize
              && l.shadowMap.value.name !in w.textures.live && l.cubeMap.value.name !in w.textures.live
              && l.shadowMap.value.name != Invalid && l.cubeMap.value.name != Invalid
              && l.shadowFbo != NoFramebuffer && l.cubeFbo != NoFramebuffer
              && l.shadowFbo !in w.fbos.live && l.cubeFbo !in w.fbos.live
  {
    var n := |w.lights|;
    AppendNames(w.lights, Initialised(position, color, intensity, kind));
    // createDepthCubemap runs before createDepthTexture
    var t := AppendPair(Owned(w.textures, TexNames(w.lights)), true);
    var f := AppendPair(Owned(w.fbos, FboNames(w.lights)), false);
    var l := Wired(Constructed(position, color, intensity, kind, t.names[2 * n], t.names[2 * n + 1]), f.names[2 * n], f.names[2 * n + 1]);
    AppendNames(w.lights, l);
    assert (w.lights + [l])[..n] == w.lights;
    World(f.pool, t.pool, w.lights + [l])
  }

  /** A moved-from light: it keeps its plain fields but holds no framebuffer, and its textures hold INVALID. */
  function MovedFrom(l: Light): (r: Light)
    ensures r.shadowFbo == NoFramebuffer && r.cubeFbo == NoFramebuffer
    ensures TexPair(r) == (Invalid, Invalid)
    ensures r.shadowMap.Some? <==> l.shadowMap.Some?
    ensures r.cubeMap.Some? <==> l.cubeMap.Some?
    ensures r == l.(shadowMap := r.shadowMap, cubeMap := r.cubeMap, shadowFbo := r.shadowFbo, cubeFbo := r.cubeFbo)
  {
    l.(shadowMap := Textures.MoveOptional(l.shadowMap, l.shadowMap).1,
       cubeMap := Cubemaps.MoveOptional(l.cubeMap, l.cubeMap).1,
       shadowFbo := NoFramebuffer, cubeFbo := NoFramebuffer)
  }

  /** The slot layout after `ls[dst] = std::move(ls[src])`. */
  lemma MovedNames(ls: seq<Light>, dst: nat, src: nat)
    requires dst < |ls| && src < |ls| && dst != src
    ensures var ls' := ls[dst := ls[src]][src := MovedFrom(ls[src])];
            var f := FboNames(ls);
            var t := TexNames(ls);
            && |f| == 2 * |ls| && |t| == 2 * |ls|
            && FboNames(ls') == f[2 * dst := f[2 * src]][2 * dst + 1 := f[2 * src + 1]][2 * src := NoFramebuffer][2 * src + 1 := NoFramebuffer]
            && TexNames(ls') == t[2 * dst := t[2 * src]][2 * dst + 1 := t[2 * src + 1]][2 * src := Invalid][2 * src + 1 := Invalid]
            && f[2 * dst] == ls[dst].shadowFbo && f[2 * dst + 1] == ls[dst].cubeFbo
            && t[2 * dst] == TexPair(ls[dst]).0 && t[2 * dst + 1] == TexPair(ls[dst]).1
  {
    var s := ls[src];
    var ls1 := ls[dst := s];
    NamesAt(ls, src);
    NamesAt(ls, dst);
    NamesUpdate(ls, dst, s);
    NamesUpdate(ls1, src, MovedFrom(s));
  }

  /**
    Move assignment `lights[dst] = std::move(lights[src])`: a no-op on self;
    otherwise the destination frees its own framebuffers, its textures free
    their own valid names through their move assignments, the destination
    takes every field and handle of the source, and the source's framebuffer
    names are zeroed and its texture names invalidated.
   */
  function MoveAssign(w: World, dst: nat, src: nat): (r: World)
    requires Valid(w) && dst < |w.lights| && src < |w.lights|
    ensures Valid(r)
    ensures w.fbos.released <= r.fbos.released && w.textures.released <= r.textures.released
    ensures dst == src ==> r == w
    ensures dst != src ==> r.lights == w.lights[dst := w.lights[src]][src := MovedFrom(w.lights[src])]
    ensures dst != src ==> r.fbos.live == w.fbos.live - {w.lights[dst].shadowFbo, w.lights[dst].cubeFbo}
    ensures dst != src ==>
              r.fbos.released == w.fbos.released + One(w.lights[dst].shadowFbo, NoFramebuffer) + One(w.lights[dst].cubeFbo, NoFramebuffer)
    ensures dst != src ==> r.textures.live == w.textures.live - {TexPair(w.lights[dst]).0, TexPair(w.lights[dst]).1}
    ensures dst != src ==>
              r.textures.released == w.textures.released + One(TexPair(w.lights[dst]).0, Invalid) + One(TexPair(w.lights[dst]).1, Invalid)
  {
    if dst == src then w
    else
      MovedNames(w.lights, dst, src);
      // destroyShadowResources, then take the source's framebuffers and zero them.
      var f := MovePair(Owned(w.fbos, FboNames(w.lights)), 2 * dst, 2 * dst + 1, 2 * src, 2 * src + 1);
      // The two optional move assignments.
      var t := MovePair(Owned(w.textures, TexNames(w.lights)), 2 * dst, 2 * dst + 1, 2 * src, 2 * src + 1);
      World(f.pool, t.pool, w.lights[dst := w.lights[src]][src := MovedFrom(w.lights[src])])
  }

  lemma MoveConstructLayout(ls: seq<Light>, l0: Light, src: nat)
    requires src < |ls|
    ensures (ls + [l0])[|ls| := ls[src]][src := MovedFrom(ls[src])] == ls[src := MovedFrom(ls[src])] + [ls[src]]
  {
  }

  /**
    The move constructor: a light whose members hold their initialisers (no
    framebuffers, empty optionals) is appended and then move-assigned from
    `src`; no name is generated or deleted.
   */
  function MoveConstruct(w: World, src: nat): (r: World)
    requires Valid(w) && src < |w.lights|
    ensures Valid(r)
    ensures w.fbos.released <= r.fbos.released && w.textures.released <= r.textures.released
    ensures r.fbos == w.fbos && r.textures == w.textures
    ensures r.lights == w.lights[src := MovedFrom(w.lights[src])] + [w.lights[src]]
  {
    var n := |w.lights|;
    var s := w.lights[src];
    var l0 := Initialised(s.position, s.color, s.intensity, s.kind);
    AppendNames(w.lights, l0);
    var f0 := AddEmptyPair(Owned(w.fbos, FboNames(w.lights)));
    var t0 := AddEmptyPair(Owned(w.textures, TexNames(w.lights)));
    var e := World(f0.pool, t0.pool, w.lights + [l0]);
    MoveConstructLayout(w.lights, l0, src);
    MoveAssign(e, n, src)
  }

  /** The light with both optional textures reset. */
  function Emptied(l: Light): Light
  {
    l.(shadowMap := None, cubeMap := None)
  }

  lemma EmptiedNames(ls: seq<Light>, i: nat)
    requires i < |ls|
    ensures TexNames(ls[i := Emptied(ls[i])]) == TexNames(ls)[2 * i := Invalid][2 * i + 1 := Invalid]
    ensures FboNames(ls[i := Emptied(ls[i])]) == FboNames(ls)
    ensures TexNames(ls)[2 * i] == TexPair(ls[i]).0 && TexNames(ls)[2 * i + 1] == TexPair(ls[i]).1
  {
    NamesAt(ls, i);
    NamesUpdate(ls, i, Emptied(ls[i]));
  }

  /**
    The destructor: destroyShadowResources, then the optionals destroy their
    textures, each deleting only a valid name. The slot is left with nothing.
   */
  function Destroy(w: World, i: nat): (r: World)
    requires Valid(w) && i < |w.lights|
    ensures Valid(r)
    ensures w.fbos.released <= r.fbos.released && w.textures.released <= r.textures.released
    ensures r.lights == w.lights[i := w.lights[i].(shadowFbo := NoFramebuffer, cubeFbo := NoFramebuffer, shadowMap := None, cubeMap := None)]
    ensures r.fbos.live == w.fbos.live - {w.lights[i].shadowFbo, w.lights[i].cubeFbo}
    ensures r.fbos.released ==
              w.fbos.released + One(w.lights[i].shadowFbo, NoFramebuffer) + One(w.lights[i].cubeFbo, NoFramebuffer)
    ensures r.textures.live == w.textures.live - {TexPair(w.lights[i]).0, TexPair(w.lights[i]).1}
    ensures r.textures.released ==
              w.textures.released + One(TexPair(w.lights[i]).0, Invalid) + One(TexPair(w.lights[i]).1, Invalid)
  {
    var l := Emptied(Wired(w.lights[i], NoFramebuffer, NoFramebuffer));
    NamesAt(w.lights, i);
    NamesUpdate(w.lights, i, l);
    var f := DestroyPair(Owned(w.fbos, FboNames(w.lights)), 2 * i, 2 * i + 1);
    var t := DestroyPair(Owned(w.textures, TexNames(w.lights)), 2 * i, 2 * i + 1);
    World(f.pool, t.pool, w.lights[i := l])
  }

  lemma ConfiguredNames(ls: seq<Light>, i: nat, op: RangeOp)
    requires i < |ls|
    ensures FboNames(ls[i := ApplyRange(ls[i], op)]) == FboNames(ls)
    ensures TexNames(ls[i := ApplyRange(ls[i], op)]) == TexNames(ls)
  {
    NamesAt(ls, i);
    NamesUpdate(ls, i, ApplyRange(ls[i], op));
  }

  /** A shadow-range setter on light i: no name is generated or deleted and no other light changes. */
  function Configure(w: World, i: nat, op: RangeOp): (r: World)
    requires Valid(w) && i < |w.lights|
    ensures Valid(r)
    ensures r.fbos == w.fbos && r.textures == w.textures
    ensures r.lights == w.lights[i := ApplyRange(w.lights[i], op)]
  {
    ConfiguredNames(w.lights, i, op);
    w.(lights := w.lights[i := ApplyRange(w.lights[i], op)])
  }

  datatype Op =
    | NewOp(position: Vec3, color: Vec3, intensity: real, kind: LightType)
    | MoveConstructOp(src: nat)
    | MoveAssignOp(dst: nat, src: nat)
    | DestroyOp(i: nat)
    | RangeSetOp(i: nat, op: RangeOp)

  /** One step on the lights; a step naming a light that does not exist does nothing. */
  function Step(w: World, op: Op): (r: World)
    requires Valid(w)
    ensures Valid(r)
    ensures w.fbos.released <= r.fbos.released && w.textures.released <= r.textures.released
  {
    match op
    case NewOp(p, c, k, t) => New(w, p, c, k, t)
    case MoveConstructOp(s) => if s < |w.lights| then MoveConstruct(w, s) else w
    case MoveAssignOp(d, s) => if d < |w.lights| && s < |w.lights| then MoveAssign(w, d, s) else w
    case DestroyOp(i) => if i < |w.lights| then Destroy(w, i) else w
    case RangeSetOp(i, o) =>
      if i < |w.lights| then Configure(w, i, o) else w
  }

  /**
    Across any sequence of constructions, moves, destructions and setter
    calls, every held framebuffer or texture name is alive and held by exactly
    one slot of one light. Since the pools never reissue a name, none is
    deleted twice.
   */
  function Run(w: World, ops: seq<Op>): (r: World)
    requires Valid(w)
    ensures Valid(r)
    ensures w.fbos.released <= r.fbos.released && w.textures.released <= r.textures.released
    ensures forall h :: h in r.fbos.released ==> r.fbos.released[h] == 1 && h !in r.fbos.live
    ensures forall h :: h in r.textures.released ==> r.textures.released[h] == 1 && h !in r.textures.live
    decreases |ops|
  {
    if |ops| == 0 then w else Run(Step(w, ops[0]), ops[1..])
  }
}
