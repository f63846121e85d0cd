/**
  RS_Texture: loading an image file into a GL texture (existence check, HDR
  detection by extension, channel-count to format table) and the move-only
  ownership of the texture name.

  The file system, the stb_image decoders and every GL upload are outside the
  model: whether the file exists, its extension and what the decoder returned
  are inputs, and glGenTextures / glDeleteTextures act on an `Ownership.Pool`.
 */
module Textures {
  import opened Results
  import opened Ownership

  datatype Texture = Texture(name: nat, width: int, height: int, channels: int, isHdr: bool)

  /** Internal formats passed to glTexImage2D. */
  datatype Format = Red | Rgb | Rgba | R16F | Rgb16F | Rgba16F

  /** Number of colour components a format stores. */
  function Components(f: Format): int
  {
    match f
    case Red => 1
    case Rgb => 3
    case Rgba => 4
    case R16F => 1
    case Rgb16F => 3
    case Rgba16F => 4
  }

  /** Half-float formats, used for HDR data. */
  predicate IsHalfFloat(f: Format)
  {
    f == R16F || f == Rgb16F || f == Rgba16F
  }

  /** A format is determined by its component count and whether it is half-float. */
  lemma FormatDetermined(f: Format, g: Format)
    requires Components(f) == Components(g) && IsHalfFloat(f) == IsHalfFloat(g)
    ensures f == g
  {
  }

  /**
    The channel switch of the loader: 1, 3 and 4 channels select the red, RGB
    and RGBA formats, half-float exactly when the image is HDR; any other
    channel count has no format.
   */
  function SelectFormat(hdr: bool, channels: int): (r: Option<Format>)
    ensures r.Some? <==> channels == 1 || channels == 3 || channels == 4
    ensures r.Some? ==> Components(r.value) == channels && (IsHalfFloat(r.value) <==> hdr)
  {
    match channels
    case 1 => Some(if hdr then R16F else Red)
    case 3 => Some(if hdr then Rgb16F else Rgb)
    case 4 => Some(if hdr then Rgba16F else Rgba)
    case _ => None
  }

  /** `::tolower` in the "C" locale: only 'A'..'Z' change. */
  function ToLower(c: char): char
  {
    if 'A' <= c <= 'Z' then (c as int + 32) as char else c
  }

  function LowerCase(s: string): (r: string)
    ensures |r| == |s|
    ensures forall i :: 0 <= i < |s| ==> r[i] == ToLower(s[i])
  {
    if |s| == 0 then "" else [ToLower(s[0])] + LowerCase(s[1..])
  }

  /**
    HDR detection: an explicit request for HDR is kept; otherwise the texture
    is HDR exactly when the lower-cased extension is ".hdr" or ".exr".
   */
  function DetectHdr(requested: bool, extension: string): (hdr: bool)
    ensures requested ==> hdr
    ensures !requested ==> (hdr <==> LowerCase(extension) == ".hdr" || LowerCase(extension) == ".exr")
  {
    requested || LowerCase(extension) == ".hdr" || LowerCase(extension) == ".exr"
  }

  /** Extension matching ignores letter case. */
  lemma DetectHdrIgnoresCase()
    ensures DetectHdr(false, ".HDR") && DetectHdr(false, ".Exr")
    ensures !DetectHdr(false, ".png") && DetectHdr(true, ".png")
  {
    assert LowerCase(".HDR") == ".hdr";
    assert LowerCase(".Exr") == ".exr";
    assert LowerCase(".png")[1] == 'p';
  }

  /** The ImageLoadingException cases. */
  datatype LoadError = FileMissing | DecodeFailed(hdr: bool) | UnsupportedChannels(channels: int)

  /** What the selected stb_image decoder reports for a readable image. */
  datatype Image = Image(width: int, height: int, channels: int)

  datatype Loaded = Loaded(result: Result<Texture, LoadError>, pool: Pool)

  /**
    The constructor as written: the GL texture name is generated before the
    channel count is checked, and the exception for an unsupported count
    leaves that name alive with no object holding it.
   */
  function LoadAsWritten(p: Pool, fileExists: bool, requestedHdr: bool, extension: string, decoded: Option<Image>): (r: Loaded)
    requires PoolOk(p)
    ensures PoolOk(r.pool)
    ensures !fileExists ==> r == Loaded(Err(FileMissing), p)
    ensures fileExists && decoded.None? ==> r == Loaded(Err(DecodeFailed(DetectHdr(requestedHdr, extension))), p)
  {
    if !fileExists then Loaded(Err(FileMissing), p)
    else
      var hdr := DetectHdr(requestedHdr, extension);
      match decoded
      case None => Loaded(Err(DecodeFailed(hdr)), p)
      case Some(image) =>
        var (h, p') := Acquire(p);
        match SelectFormat(hdr, image.channels)
        case None => Loaded(Err(UnsupportedChannels(image.channels)), p')
        case Some(_) => Loaded(Ok(Texture(h, image.width, image.height, image.channels, hdr)), p')
  }

  /** A two-channel image (grey and alpha) makes the constructor throw while a fresh texture name stays alive. */
  lemma LoadLeaksNameOnUnsupportedChannels(p: Pool)
    requires PoolOk(p)
    ensures var r := LoadAsWritten(p, true, false, ".png", Some(Image(4, 4, 2)));
      && r.result == Err(UnsupportedChannels(2))
      && r.pool.live == p.live + {Acquire(p).0}
      && Acquire(p).0 !in p.live
  {
  }

  /**
    The constructor with the evident intent restored: no texture name outlives
    a failed load. A missing file fails before any decoding, a failed decode
    or an unsupported channel count fails without touching the pool, and a
    successful load holds one fresh live name.
   */
  function Load(p: Pool, fileExists: bool, requestedHdr: bool, extension: string, decoded: Option<Image>): (r: Loaded)
    requires PoolOk(p)
    ensures PoolOk(r.pool)
    ensures r.result.Err? ==> r.pool == p
    ensures !fileExists ==> r.result == Err(FileMissing)
    ensures fileExists && decoded.None? ==> r.result == Err(DecodeFailed(DetectHdr(requestedHdr, extension)))
    ensures fileExists && decoded.Some? && decoded.value.channels !in {1, 3, 4} ==>
              r.result == Err(UnsupportedChannels(decoded.value.channels))
    ensures r.result.Ok? <==> fileExists && decoded.Some? && decoded.value.channels in {1, 3, 4}
    ensures r.result.Ok? ==>
              var t := r.result.value;
              && t.name != p.none && t.name !in p.live && t.name !in p.released
              && r.pool.live == p.live + {t.name} && r.pool.released == p.released && r.pool.none == p.none
              && t.width == decoded.value.width && t.height == decoded.value.height
              && t.channels == decoded.value.channels
              && t.isHdr == DetectHdr(requestedHdr, extension)
  {
    if !fileExists then Loaded(Err(FileMissing), p)
    else
      var hdr := DetectHdr(requestedHdr, extension);
      match decoded
      case None => Loaded(Err(DecodeFailed(hdr)), p)
      case Some(image) =>
        match SelectFormat(hdr, image.channels)
        case None => Loaded(Err(UnsupportedChannels(image.channels)), p)
        case Some(_) =>
          var (h, p') := Acquire(p);
          Loaded(Ok(Texture(h, image.width, image.height, image.channels, hdr)), p')
  }

  /** The corrected loader and the loader as written agree on every load that does not hit the leak. */
  lemma LoadAgreesExceptLeak(p: Pool, fileExists: bool, requestedHdr: bool, extension: string, decoded: Option<Image>)
    requires PoolOk(p)
    ensures LoadAsWritten(p, fileExists, requestedHdr, extension, decoded).result
         == Load(p, fileExists, requestedHdr, extension, decoded).result
    ensures Load(p, fileExists, requestedHdr, extension, decoded).result.Ok? ==>
              LoadAsWritten(p, fileExists, requestedHdr, extension, decoded) == Load(p, fileExists, requestedHdr, extension, decoded)
  {
  }

  /**
    The move assignment between two distinct textures: `dst` takes every field
    of `src` and `src` keeps its fields but holds the sentinel name. Deleting
    `dst`'s own valid name is the pool's side of the move.
   */
  function MoveValue(dst: Texture, src: Texture): (r: (Texture, Texture))
    ensures r.0 == src
    ensures r.1 == src.(name := Invalid)
  {
    (src, src.(name := Invalid))
  }

  /** The name an optional texture holds. */
  function OptName(t: Option<Texture>): nat
  {
    if t.Some? then t.value.name else Invalid
  }

  /**
    Move assignment of `std::optional<RS_Texture>`: both engaged moves the
    texture; an empty destination is move-constructed; an empty source resets
    (destroys) the destination. In every case the destination ends with the
    source's name and the source with none.
   */
  function MoveOptional(dst: Option<Texture>, src: Option<Texture>): (r: (Option<Texture>, Option<Texture>))
    ensures OptName(r.0) == OptName(src) && OptName(r.1) == Invalid
    ensures r.0 == src
    ensures r.1.Some? <==> src.Some?
  {
    match (dst, src)
    case (Some(d), Some(s)) => var (d', s') := MoveValue(d, s); (Some(d'), Some(s'))
    case (None, Some(s)) => (Some(s), Some(s.(name := Invalid)))
    case (_, None) => (None, None)
  }

  /**
    A set of live RS_Texture objects, each in a slot, sharing one texture-name pool.
    GL has a single texture-name space; this world is the view of it that the textures
    hold, as Cubemaps.World is the view the cubemaps hold.
   */
  datatype World = World(pool: Pool, textures: seq<Texture>)

  function Names(ts: seq<Texture>): (r: seq<nat>)
    ensures |r| == |ts| && forall i :: 0 <= i < |ts| ==> r[i] == ts[i].name
  {
    seq(|ts|, i requires 0 <= i < |ts| => ts[i].name)
  }

  ghost predicate Valid(w: World)
  {
    w.pool.none == Invalid && Owns(w.pool, Names(w.textures))
  }

  function EmptyWorld(): (w: World)
    ensures Valid(w) && w.textures == []
  {
    World(EmptyPool(Invalid), [])
  }

  /** Constructs a texture from a file; a failed load adds nothing and leaks nothing. */
  function LoadInto(w: World, fileExists: bool, requestedHdr: bool, extension: string, decoded: Option<Image>): (r: World)
    requires Valid(w)
    ensures Valid(r)
    ensures Load(w.pool, fileExists, requestedHdr, extension, decoded).result.Err? ==> r == w
    ensures Load(w.pool, fileExists, requestedHdr, extension, decoded).result.Ok? ==>
              r.textures == w.textures + [Load(w.pool, fileExists, requestedHdr, extension, decoded).result.value]
  {
    var loaded := Load(w.pool, fileExists, requestedHdr, extension, decoded);
    match loaded.result
    case Err(_) => w
    case Ok(t) =>
      var ts := w.textures + [t];
      assert Names(ts) == Names(w.textures) + [t.name];
      HeldAppend(Names(w.textures), t.name, Invalid);
      OwnsAfterAcquire(w.pool, Names(w.textures), loaded.pool, Names(ts), t.name);
      World(loaded.pool, ts)
  }

  /** The move constructor: a new texture copies every field of `src`, whose name becomes INVALID. */
  function MoveConstruct(w: World, src: nat): (r: World)
    requires Valid(w) && src < |w.textures|
    ensures Valid(r)
    ensures r.pool == w.pool
    ensures r.textures == (w.textures + [w.textures[src]])[src := w.textures[src].(name := Invalid)]
  {
    var o := Ownership.MoveConstruct(Owned(w.pool, Names(w.textures)), src);
    var ts := (w.textures + [w.textures[src]])[src := w.textures[src].(name := Invalid)];
    assert Names(ts) == o.names;
    World(o.pool, ts)
  }

  /**
    The move assignment `textures[dst] = std::move(textures[src])`: a no-op on
    self; otherwise the destination's valid name is deleted, the destination
    takes every field of the source, and the source's name becomes INVALID.
   */
  function MoveAssign(w: World, dst: nat, src: nat): (r: World)
    requires Valid(w) && dst < |w.textures| && src < |w.textures|
    ensures Valid(r)
    ensures dst == src ==> r == w
    ensures dst != src ==> r.textures == w.textures[dst := w.textures[src]][src := w.textures[src].(name := Invalid)]
    ensures dst != src && w.textures[dst].name == Invalid ==> r.pool == w.pool
    ensures dst != src && w.textures[dst].name != Invalid ==> ReleasedOnly(w.pool, r.pool, w.textures[dst].name)
  {
    if dst == src then w
    else
      var o := Ownership.MoveAssign(Owned(w.pool, Names(w.textures)), dst, src);
      var (d', s') := MoveValue(w.textures[dst], w.textures[src]);
      var ts := w.textures[dst := d'][src := s'];
      MovedNames(w.textures, dst, src);
      World(o.pool, ts)
  }

  /** Moving one texture into another moves its name the same way. */
  lemma MovedNames(ts: seq<Texture>, dst: nat, src: nat)
    requires dst < |ts| && src < |ts| && dst != src
    ensures Names(ts[dst := ts[src]][src := ts[src].(name := Invalid)]) == Names(ts)[dst := ts[src].name][src := Invalid]
  {
  }

  /** The destructor: deletes the name only when it is valid; the slot is left holding INVALID. */
  function Destroy(w: World, i: nat): (r: World)
    requires Valid(w) && i < |w.textures|
    ensures Valid(r)
    ensures r.textures == w.textures[i := w.textures[i].(name := Invalid)]
    ensures w.textures[i].name == Invalid ==> r.pool == w.pool
    ensures w.textures[i].name != Invalid ==> ReleasedOnly(w.pool, r.pool, w.textures[i].name)
  {
    var o := Ownership.Destroy(Owned(w.pool, Names(w.textures)), i);
    var ts := w.textures[i := w.textures[i].(name := Invalid)];
    assert Names(ts) == o.names;
    World(o.pool, ts)
  }

  /** One step a program can take on its textures. */
  datatype Op =
    | LoadOp(fileExists: bool, requestedHdr: bool, extension: string, decoded: Option<Image>)
    | MoveConstructOp(src: nat)
    | MoveAssignOp(dst: nat, src: nat)
    | DestroyOp(i: nat)

  /** Applies one step; a step naming a slot that does not exist does nothing. */
  function Step(w: World, op: Op): (r: World)
    requires Valid(w)
    ensures Valid(r)
    ensures w.pool.released <= r.pool.released
  {
    match op
    case LoadOp(e, h, x, d) => LoadInto(w, e, h, x, d)
    case MoveConstructOp(s) => if s < |w.textures| then MoveConstruct(w, s) else w
    case MoveAssignOp(d, s) => if d < |w.textures| && s < |w.textures| then MoveAssign(w, d, s) else w
    case DestroyOp(i) => if i < |w.textures| then Destroy(w, i) else w
  }

  /**
    Any sequence of loads, moves and destructions keeps every texture name
    owned by at most one object, and never deletes a name twice: every name
    ever deleted stays in the pool's record with multiplicity one.
   */
  function Run(w: World, ops: seq<Op>): (r: World)
    requires Valid(w)
    ensures Valid(r)
    ensures w.pool.released <= r.pool.released
    ensures forall h :: h in r.pool.released ==> r.pool.released[h] == 1 && h !in r.pool.live
    decreases |ops|
  {
    if |ops| == 0 then w else Run(Step(w, ops[0]), ops[1..])
  }
}
