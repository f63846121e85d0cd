/**
  PerlinNoise: Ken Perlin's improved gradient noise over a 512-entry
  permutation table.

  The constructor shuffles 0..255 and stores the result twice, so that index
  arithmetic up to 511 needs no wrap-around. The Mersenne-Twister shuffle is
  not modelled: it is an arbitrary schedule of in-range swaps, which is what
  any run of std::shuffle performs. `v & 255` on a two's-complement int is
  the Euclidean remainder `v % 256`, and `h & 15`, `h & 1`, `h & 2` on a
  value in 0..15 are written with `%` and `/` the same way.
 */
module Perlin {
  import opened Vectors

  /** Entries of the shuffled base table; the stored table has twice as many. */
  const BaseSize: nat := 256
  const TableSize: nat := 512

  /** 0, 1, ..., 255: the base table before the shuffle. */
  function Identity(): (r: seq<int>)
    ensures |r| == BaseSize && forall i :: 0 <= i < BaseSize ==> r[i] == i
  {
    seq(BaseSize, i => i)
  }

  /** A rearrangement of 0..255. */
  predicate IsPermutation(b: seq<int>)
  {
    |b| == BaseSize && multiset(b) == multiset(Identity())
  }

  /** Every entry of a rearrangement of 0..255 lies in 0..255. */
  lemma PermutationInRange(b: seq<int>, i: int)
    requires IsPermutation(b) && 0 <= i < |b|
    ensures 0 <= b[i] < BaseSize
  {
    assert b[i] in multiset(b);
    assert b[i] in multiset(Identity());
    var k :| 0 <= k < BaseSize && Identity()[k] == b[i];
  }

  /** One exchange of two entries. */
  function Swap(s: seq<int>, i: nat, j: nat): (r: seq<int>)
    requires i < |s| && j < |s|
    ensures |r| == |s| && multiset(r) == multiset(s)
    ensures r[i] == s[j] && r[j] == s[i]
    ensures forall k :: 0 <= k < |s| && k != i && k != j ==> r[k] == s[k]
  {
    s[i := s[j]][j := s[i]]
  }

  predicate ValidSwaps(swaps: seq<(nat, nat)>)
  {
    forall k :: 0 <= k < |swaps| ==> swaps[k].0 < BaseSize && swaps[k].1 < BaseSize
  }

  /** std::shuffle, as the sequence of exchanges it performs. */
  function Shuffle(s: seq<int>, swaps: seq<(nat, nat)>): (r: seq<int>)
    requires |s| == BaseSize && ValidSwaps(swaps)
    ensures |r| == BaseSize && multiset(r) == multiset(s)
    decreases |swaps|
  {
    if |swaps| == 0 then s
    else Shuffle(Swap(s, swaps[0].0, swaps[0].1), swaps[1..])
  }

  /** Whatever the exchanges, the shuffled base is a rearrangement of 0..255. */
  lemma ShuffleIsPermutation(swaps: seq<(nat, nat)>)
    requires ValidSwaps(swaps)
    ensures IsPermutation(Shuffle(Identity(), swaps))
  {
  }

  /**
    The constructor's copy loop: entry i and entry 256 + i both receive base
    entry i, over a zero-initialised table of 512 entries.
   */
  method BuildTable(base: seq<int>) returns (m: seq<int>)
    requires |base| == BaseSize
    ensures |m| == TableSize
    ensures m[..BaseSize] == base && m[BaseSize..] == base
    ensures forall i :: 0 <= i < BaseSize ==> m[i] == m[BaseSize + i]
  {
    m := seq(TableSize, _ => 0);
    var i := 0;
    while i < BaseSize
      invariant 0 <= i <= BaseSize && |m| == TableSize
      invariant forall k :: 0 <= k < i ==> m[k] == base[k]
      invariant forall k :: 0 <= k < i ==> m[BaseSize + k] == base[k]
    {
      m := m[BaseSize + i := base[i]][i := base[i]];
      i := i + 1;
    }
    assert m[..BaseSize] == base;
    assert m[BaseSize..] == base by {
      forall k | 0 <= k < BaseSize
        ensures m[BaseSize..][k] == base[k]
      {
        assert m[BaseSize..][k] == m[BaseSize + k];
      }
    }
  }

  /** A permutation table as the constructor leaves it: a rearrangement of 0..255, stored twice. */
  predicate Table(m: seq<int>)
  {
    |m| == TableSize && IsPermutation(m[..BaseSize]) && m[BaseSize..] == m[..BaseSize]
  }

  /** The entries of a table all lie in 0..255. */
  lemma TableInRange(m: seq<int>, i: int)
    requires Table(m) && 0 <= i < TableSize
    ensures 0 <= m[i] < BaseSize
  {
    if i < BaseSize {
      assert m[i] == m[..BaseSize][i];
      PermutationInRange(m[..BaseSize], i);
    } else {
      assert m[i] == m[BaseSize..][i - BaseSize] == m[..BaseSize][i - BaseSize];
      PermutationInRange(m[..BaseSize], i - BaseSize);
    }
  }

  /** PerlinNoise(seed): the shuffle is given by its exchanges. */
  method NewTable(swaps: seq<(nat, nat)>) returns (m: seq<int>)
    requires ValidSwaps(swaps)
    ensures Table(m)
    ensures forall i :: 0 <= i < TableSize ==> 0 <= m[i] < BaseSize
  {
    var base := Shuffle(Identity(), swaps);
    ShuffleIsPermutation(swaps);
    m := BuildTable(base);
    forall i | 0 <= i < TableSize
      ensures 0 <= m[i] < BaseSize
    {
      TableInRange(m, i);
    }
  }

  /** `value & 255`: the low byte, in 0..255 for every int, and congruent to the value. */
  function Mask(v: int): (r: int)
    ensures 0 <= r < BaseSize
    ensures (v - r) % 256 == 0
  {
    v % 256
  }

  /** The lookup lambda of noise(): every argument is masked first, so every lookup is in bounds. */
  function Perm(m: seq<int>, value: int): int
    requires |m| == TableSize
  {
    m[Mask(value)]
  }

  /** Every lookup into a constructed table yields a lattice hash in 0..255, whatever the argument. */
  lemma PermInRange(m: seq<int>, value: int)
    requires Table(m)
    ensures 0 <= Perm(m, value) < BaseSize
  {
    TableInRange(m, Mask(value));
  }

  /** The quintic fade curve 6t^5 - 15t^4 + 10t^3; it is 0 at 0 and 1 at 1. */
  function Fade(t: real): (r: real)
    ensures t == 0.0 ==> r == 0.0
    ensures t == 1.0 ==> r == 1.0
  {
    t * t * t * (t * (t * 6.0 - 15.0) + 10.0)
  }

  /** Linear blend: a at t = 0 and b at t = 1. */
  function Lerp(t: real, a: real, b: real): (r: real)
    ensures t == 0.0 ==> r == a
    ensures t == 1.0 ==> r == b
    ensures a == b ==> r == a
  {
    a + t * (b - a)
  }

  /** grad(): the low four hash bits choose u, v and their signs. */
  function Grad(hash: int, x: real, y: real, z: real): real
  {
    var h := hash % 16;
    var u := if h < 8 then x else y;
    var v := if h < 4 then y else if h == 12 || h == 14 then x else z;
    (if h % 2 == 1 then -u else u) + (if (h / 2) % 2 == 1 then -v else v)
  }

  /** Perlin's gradient table: the twelve cube-edge directions, with four of them repeated to fill sixteen slots. */
  function Gradients(): seq<IVec3>
  {
    [ IVec3(1, 1, 0), IVec3(-1, 1, 0), IVec3(1, -1, 0), IVec3(-1, -1, 0),
      IVec3(1, 0, 1), IVec3(-1, 0, 1), IVec3(1, 0, -1), IVec3(-1, 0, -1),
      IVec3(0, 1, 1), IVec3(0, -1, 1), IVec3(0, 1, -1), IVec3(0, -1, -1),
      IVec3(1, 1, 0), IVec3(0, -1, 1), IVec3(-1, 1, 0), IVec3(0, -1, -1) ]
  }

  /** An edge direction of the cube: two components are +-1 and one is 0. */
  predicate IsEdgeDirection(g: IVec3)
  {
    && -1 <= g.x <= 1 && -1 <= g.y <= 1 && -1 <= g.z <= 1
    && IDot(g, g) == 2
  }

  /** grad(hash, x, y, z) is the dot product of (x, y, z) with gradient `hash & 15`, always a cube-edge direction. */
  lemma GradIsTableDot(hash: int, x: real, y: real, z: real)
    ensures Grad(hash, x, y, z) == Dot(ToReal(Gradients()[hash % 16]), Vec3(x, y, z))
    ensures IsEdgeDirection(Gradients()[hash % 16])
  {
    var h := hash % 16;
    if h < 8 {
      if h < 4 {
        if h == 0 {} else if h == 1 {} else if h == 2 {} else {}
      } else {
        if h == 4 {} else if h == 5 {} else if h == 6 {} else {}
      }
    } else {
      if h < 12 {
        if h == 8 {} else if h == 9 {} else if h == 10 {} else {}
      } else {
        if h == 12 {} else if h == 13 {} else if h == 14 {} else {}
      }
    }
  }

  /** The gradient of a lattice corner depends only on the low four bits of its hash. */
  lemma GradUsesLowBits(hash: int, x: real, y: real, z: real)
    ensures Grad(hash, x, y, z) == Grad(hash % 16, x, y, z)
    ensures Grad(hash, x, y, z) == Grad(hash + 16, x, y, z)
  {
  }

  /** The hash of the lattice corner (xi + dx, yi + dy, zi + dz): three chained, masked lookups. */
  function CornerHash(m: seq<int>, xi: int, yi: int, zi: int, dx: int, dy: int, dz: int): int
    requires |m| == TableSize
  {
    Perm(m, Perm(m, Perm(m, xi + dx) + yi + dy) + zi + dz)
  }

  /** The fractional part x - floor(x), in [0, 1). */
  function Frac(x: real): (r: real)
    ensures 0.0 <= r < 1.0
  {
    x - x.Floor as real
  }

  /**
    The blend inside the unit cell whose masked corner is (xi, yi, zi), at
    offsets (xf, yf, zf) from that corner.
   */
  function CellNoise(m: seq<int>, xi: int, yi: int, zi: int, xf: real, yf: real, zf: real): real
    requires |m| == TableSize
  {
    var u := Fade(xf);
    var v := Fade(yf);
    var w := Fade(zf);
    var aaa := CornerHash(m, xi, yi, zi, 0, 0, 0);
    var aba := CornerHash(m, xi, yi, zi, 0, 1, 0);
    var aab := CornerHash(m, xi, yi, zi, 0, 0, 1);
    var abb := CornerHash(m, xi, yi, zi, 0, 1, 1);
    var baa := CornerHash(m, xi, yi, zi, 1, 0, 0);
    var bba := CornerHash(m, xi, yi, zi, 1, 1, 0);
    var bab := CornerHash(m, xi, yi, zi, 1, 0, 1);
    var bbb := CornerHash(m, xi, yi, zi, 1, 1, 1);
    var x1 := Lerp(u, Grad(aaa, xf, yf, zf), Grad(baa, xf - 1.0, yf, zf));
    var x2 := Lerp(u, Grad(aba, xf, yf - 1.0, zf), Grad(bba, xf - 1.0, yf - 1.0, zf));
    var y1 := Lerp(v, x1, x2);
    var x3 := Lerp(u, Grad(aab, xf, yf, zf - 1.0), Grad(bab, xf - 1.0, yf, zf - 1.0));
    var x4 := Lerp(u, Grad(abb, xf, yf - 1.0, zf - 1.0), Grad(bbb, xf - 1.0, yf - 1.0, zf - 1.0));
    var y2 := Lerp(v, x3, x4);
    Lerp(w, y1, y2)
  }

  /** noise(x, y, z): the cell blend at the masked floor of the point and its fractional offsets. */
  function Noise(m: seq<int>, x: real, y: real, z: real): real
    requires |m| == TableSize
  {
    CellNoise(m, Mask(x.Floor), Mask(y.Floor), Mask(z.Floor), Frac(x), Frac(y), Frac(z))
  }

  /** At a cell's own corner the blend is zero: the fade weights are 0 and the corner's gradient is dotted with the zero offset. */
  lemma CellNoiseAtCorner(m: seq<int>, xi: int, yi: int, zi: int)
    requires |m| == TableSize
    ensures CellNoise(m, xi, yi, zi, 0.0, 0.0, 0.0) == 0.0
  {
  }

  /** At every lattice point the noise is zero. */
  lemma NoiseVanishesOnLattice(m: seq<int>, a: int, b: int, c: int)
    requires |m| == TableSize
    ensures Noise(m, a as real, b as real, c as real) == 0.0
  {
    assert Frac(a as real) == 0.0 && Frac(b as real) == 0.0 && Frac(c as real) == 0.0;
    CellNoiseAtCorner(m, Mask(a), Mask(b), Mask(c));
  }

  /** A shift by 256 along x leaves the masked cell and the offsets unchanged, so the noise repeats. */
  lemma NoisePeriodicX(m: seq<int>, x: real, y: real, z: real)
    requires |m| == TableSize
    ensures Noise(m, x + 256.0, y, z) == Noise(m, x, y, z)
  {
    ShiftedFloor(x);
  }

  lemma NoisePeriodicY(m: seq<int>, x: real, y: real, z: real)
    requires |m| == TableSize
    ensures Noise(m, x, y + 256.0, z) == Noise(m, x, y, z)
  {
    ShiftedFloor(y);
  }

  lemma NoisePeriodicZ(m: seq<int>, x: real, y: real, z: real)
    requires |m| == TableSize
    ensures Noise(m, x, y, z + 256.0) == Noise(m, x, y, z)
  {
    ShiftedFloor(z);
  }

  lemma ShiftedFloor(x: real)
    ensures (x + 256.0).Floor == x.Floor + 256
    ensures Mask((x + 256.0).Floor) == Mask(x.Floor)
    ensures Frac(x + 256.0) == Frac(x)
  {
  }
}
