/**
  The water tile's grid: an (R+1) x (R+1) lattice of vertices stored row by
  row (vertex (x, z) at z(R+1) + x), and two triangles per cell listed cell
  by cell in the same row-major order.

  Index arithmetic is on unbounded integers. The source computes it in
  size_t and uint32_t, which cannot overflow at the resolution it uses.
 */
module WaterGrid {
  import opened Vectors

  lemma {:induction false} MulAtLeast(w: int, d: int)
    requires w > 0 && d >= 1
    ensures w * d >= w
    decreases d
  {
    if d > 1 {
      MulAtLeast(w, d - 1);
      assert w * d == w * (d - 1) + w;
    }
  }

  /** Row-major flattening of a w x h grid: the index is in range and `/` and `%` recover the row and the column. */
  lemma FlatIndex(w: int, h: int, x: int, z: int)
    requires 0 <= x < w && 0 <= z < h
    ensures 0 <= z * w + x < w * h
    ensures (z * w + x) / w == z && (z * w + x) % w == x
  {
    if z >= 1 {
      MulAtLeast(w, z);
    }
    MulAtLeast(w, h - z);
    assert w * (h - z) == w * h - z * w;
    var k := z * w + x;
    var q := k / w;
    var r := k % w;
    assert k == w * q + r;
    assert w * (q - z) == x - r by {
      assert w * (q - z) == w * q - w * z;
    }
    if q - z >= 1 {
      MulAtLeast(w, q - z);
    } else if q - z <= -1 {
      MulAtLeast(w, z - q);
    }
  }

  /** The row of a cell number below R * R is below R. */
  lemma CellRow(R: int, c: int)
    requires R > 0 && 0 <= c < R * R
    ensures 0 <= c % R < R && 0 <= c / R < R
  {
    var q := c / R;
    assert c == R * q + c % R;
    if q > R {
      MulAtLeast(R, q - R);
    }
  }

  /** The storage index of grid point (x, z) in a grid `w` points wide. */
  function GridIndex(w: int, x: int, z: int): int
  {
    z * w + x
  }

  /** The grid point stored at index k: (column, row). */
  function Coordinates(w: int, k: int): (int, int)
    requires w > 0
  {
    (k % w, k / w)
  }

  /** Storing a point and reading its coordinates back gives the point. */
  lemma CoordinatesRoundTrip(w: int, h: int, x: int, z: int)
    requires 0 <= x < w && 0 <= z < h
    ensures 0 <= GridIndex(w, x, z) < w * h
    ensures Coordinates(w, GridIndex(w, x, z)) == (x, z)
  {
    FlatIndex(w, h, x, z);
  }

  /** Reading an index's coordinates and storing them gives the index. */
  lemma IndexRoundTrip(w: int, k: int)
    requires w > 0
    ensures GridIndex(w, Coordinates(w, k).0, Coordinates(w, k).1) == k
  {
  }

  /** The values of f over the first n points of a row-major grid `w` wide; point k is (k % w, k / w). */
  function RowMajor<T>(w: int, n: nat, f: (int, int) -> T): (r: seq<T>)
    requires w > 0
    ensures |r| == n
  {
    seq(n, k => f(k % w, k / w))
  }

  lemma RowMajorAt<T>(w: int, n: nat, f: (int, int) -> T, k: nat)
    requires w > 0 && k < n
    ensures RowMajor(w, n, f)[k] == f(k % w, k / w)
  {
  }

  /** Grid point (x, z) of a full w x h row-major grid holds f(x, z). */
  lemma RowMajorAtPoint<T>(w: int, h: int, f: (int, int) -> T, x: int, z: int)
    requires 0 <= x < w && 0 <= z < h
    ensures 0 <= GridIndex(w, x, z) < w * h
    ensures RowMajor(w, w * h, f)[GridIndex(w, x, z)] == f(x, z)
  {
    FlatIndex(w, h, x, z);
    RowMajorAt(w, w * h, f, GridIndex(w, x, z));
  }

  /**
    The double loop `for z in 0..h, for x in 0..w` that writes f(x, z) at
    z * w + x, as in rebuild and update.
   */
  method FillGrid<T>(w: int, h: nat, f: (int, int) -> T) returns (r: seq<T>)
    requires w > 0
    ensures r == RowMajor(w, w * h, f)
  {
    r := [];
    var z := 0;
    ghost var n: nat := 0;
    while z < h
      invariant 0 <= z <= h && n == z * w
      invariant r == RowMajor(w, n, f)
    {
      var x := 0;
      while x < w
        invariant 0 <= x <= w && n == z * w + x
        invariant r == RowMajor(w, n, f)
      {
        RowMajorStep(w, f, n, x, z);
        r := r + [f(x, z)];
        x := x + 1;
        n := n + 1;
      }
      assert n == (z + 1) * w;
      z := z + 1;
    }
    assert n == w * h;
  }

  /** One more step of the double loop appends f at the next point. */
  lemma RowMajorStep<T>(w: int, f: (int, int) -> T, n: nat, x: int, z: int)
    requires 0 <= x < w && 0 <= z && n == z * w + x
    ensures RowMajor(w, n + 1, f) == RowMajor(w, n, f) + [f(x, z)]
  {
    FlatIndex(w, z + 1, x, z);
    assert RowMajor(w, n + 1, f)[n] == f(x, z);
    assert RowMajor(w, n + 1, f)[..n] == RowMajor(w, n, f);
  }

  /** Vertices and indices of a grid of resolution R. */
  function VertexCount(R: int): int
  {
    (R + 1) * (R + 1)
  }

  function IndexCount(R: int): int
  {
    R * R * 6
  }

  /**
    The six indices cell (x, z) emits, (TL, BL, TR) then (TR, BL, BR): the
    cell's corners in the vertex grid, which is R + 1 points wide.
   */
  function CellIndices(R: int, x: int, z: int): (r: seq<int>)
    ensures |r| == 6
    ensures r[0] == GridIndex(R + 1, x, z) && r[1] == GridIndex(R + 1, x, z + 1) && r[2] == GridIndex(R + 1, x + 1, z)
    ensures r[3] == GridIndex(R + 1, x + 1, z) && r[4] == GridIndex(R + 1, x, z + 1) && r[5] == GridIndex(R + 1, x + 1, z + 1)
  {
    var topLeft := z * (R + 1) + x;
    var topRight := topLeft + 1;
    var bottomLeft := topLeft + (R + 1);
    var bottomRight := bottomLeft + 1;
    assert bottomLeft == (z + 1) * (R + 1) + x;
    [topLeft, bottomLeft, topRight, topRight, bottomLeft, bottomRight]
  }

  /** The indices of the first n cells, cell c being (c % R, c / R). */
  function Cells(R: int, n: nat): (r: seq<int>)
    requires R > 0
    ensures |r| == 6 * n
  {
    if n == 0 then [] else Cells(R, n - 1) + CellIndices(R, (n - 1) % R, (n - 1) / R)
  }

  /** The index buffer rebuild produces. */
  function Topology(R: int): (r: seq<int>)
    requires R > 0
    ensures |r| == IndexCount(R)
  {
    Cells(R, R * R)
  }

  /** The double loop of rebuild that pushes six indices per cell. */
  method EmitIndices(R: int) returns (r: seq<int>)
    requires R > 0
    ensures r == Topology(R)
    ensures |r| == IndexCount(R)
  {
    r := [];
    var z := 0;
    while z < R
      invariant 0 <= z <= R
      invariant r == Cells(R, z * R)
    {
      var x := 0;
      while x < R
        invariant 0 <= x <= R
        invariant r == Cells(R, z * R + x)
      {
        FlatIndex(R, z + 1, x, z);
        var topLeft := z * (R + 1) + x;
        var topRight := topLeft + 1;
        var bottomLeft := topLeft + (R + 1);
        var bottomRight := bottomLeft + 1;
        r := r + [topLeft, bottomLeft, topRight] + [topRight, bottomLeft, bottomRight];
        x := x + 1;
      }
      assert z * R + R == (z + 1) * R;
      z := z + 1;
    }
  }

  lemma {:induction false} CellsAt(R: int, n: nat, c: nat, j: nat)
    requires R > 0 && c < n && j < 6
    ensures Cells(R, n)[6 * c + j] == CellIndices(R, c % R, c / R)[j]
  {
    if c < n - 1 {
      CellsAt(R, n - 1, c, j);
    }
  }

  /** Entry j of cell (x, z) sits at 6(zR + x) + j of the index buffer. */
  lemma TopologyCell(R: int, x: int, z: int, j: nat)
    requires 0 <= x < R && 0 <= z < R && j < 6
    ensures 0 <= 6 * GridIndex(R, x, z) + j < IndexCount(R)
    ensures Topology(R)[6 * GridIndex(R, x, z) + j] == CellIndices(R, x, z)[j]
  {
    FlatIndex(R, R, x, z);
    CellsAt(R, R * R, GridIndex(R, x, z), j);
  }

  /** Every index the buffer holds names a vertex of the grid. */
  lemma TopologyInRange(R: int, i: int)
    requires R > 0 && 0 <= i < IndexCount(R)
    ensures 0 <= Topology(R)[i] < VertexCount(R)
  {
    var c := i / 6;
    CellsAt(R, R * R, c, i % 6);
    CellRow(R, c);
    var x, z := c % R, c / R;
    FlatIndex(R + 1, R + 1, x, z);
    FlatIndex(R + 1, R + 1, x + 1, z);
    FlatIndex(R + 1, R + 1, x, z + 1);
    FlatIndex(R + 1, R + 1, x + 1, z + 1);
  }

  /** Twice the signed area of the triangle (p, q, s) of (column, row) points. */
  function Area(p: (int, int), q: (int, int), s: (int, int)): int
  {
    (q.0 - p.0) * (s.1 - p.1) - (q.1 - p.1) * (s.0 - p.0)
  }

  /** Twice the signed area of the triangle of grid indices (a, b, c). */
  function Orientation(w: int, a: int, b: int, c: int): int
    requires w > 0
  {
    Area(Coordinates(w, a), Coordinates(w, b), Coordinates(w, c))
  }

  /** (TL, BL, TR) and (TR, BL, BR) of the cell at (x, z) have the same signed area. */
  lemma CellAreas(x: int, z: int)
    ensures Area((x, z), (x, z + 1), (x + 1, z)) == -1
    ensures Area((x + 1, z), (x, z + 1), (x + 1, z + 1)) == -1
  {
  }

  /** Both triangles of a cell are half the cell and are wound the same way round. */
  lemma CellWinding(R: int, x: int, z: int)
    requires 0 <= x < R && 0 <= z < R
    ensures var t := CellIndices(R, x, z);
            && Orientation(R + 1, t[0], t[1], t[2]) == -1
            && Orientation(R + 1, t[3], t[4], t[5]) == -1
  {
    var t := CellIndices(R, x, z);
    CoordinatesRoundTrip(R + 1, R + 1, x, z);
    CoordinatesRoundTrip(R + 1, R + 1, x + 1, z);
    CoordinatesRoundTrip(R + 1, R + 1, x, z + 1);
    CoordinatesRoundTrip(R + 1, R + 1, x + 1, z + 1);
    CellAreas(x, z);
  }

  /** std::clamp(v, lo, hi). */
  function Clamp(v: int, lo: int, hi: int): (r: int)
    requires lo <= hi
    ensures lo <= r <= hi
    ensures lo <= v <= hi ==> r == v
    ensures v < lo ==> r == lo
    ensures v > hi ==> r == hi
  {
    if v < lo then lo else if hi < v then hi else v
  }

  /** computeNormal's index lambda: both coordinates are clamped into the grid before flattening. */
  function NeighbourIndex(R: int, x: int, z: int): (k: int)
    requires R >= 0
    ensures 0 <= k < VertexCount(R)
    ensures 0 <= x <= R && 0 <= z <= R ==> k == GridIndex(R + 1, x, z)
    ensures k == GridIndex(R + 1, Clamp(x, 0, R), Clamp(z, 0, R))
  {
    FlatIndex(R + 1, R + 1, Clamp(x, 0, R), Clamp(z, 0, R));
    GridIndex(R + 1, Clamp(x, 0, R), Clamp(z, 0, R))
  }

  /** The heights left, right, down and up of (x, z), clamped at the border. */
  function Neighbours(R: int, x: int, z: int, heights: seq<real>): (real, real, real, real)
    requires R >= 0 && |heights| == VertexCount(R)
  {
    ( heights[NeighbourIndex(R, x - 1, z)], heights[NeighbourIndex(R, x + 1, z)],
      heights[NeighbourIndex(R, x, z - 1)], heights[NeighbourIndex(R, x, z + 1)] )
  }

  /**
    computeNormal before glm::normalize: the central-difference normal, whose
    y component is twice the grid step and so never vanishes.
   */
  function Normal(R: int, x: int, z: int, step: real, heights: seq<real>): (n: Vec3)
    requires R >= 0 && |heights| == VertexCount(R)
    ensures n.y == 2.0 * step
    ensures step > 0.0 ==> n.y > 0.0
  {
    var (hL, hR, hD, hU) := Neighbours(R, x, z, heights);
    Vec3(-(hR - hL), 2.0 * step, -(hU - hD))
  }

  /** The normal is perpendicular to the surface's two central-difference tangents. */
  lemma NormalIsPerpendicular(R: int, x: int, z: int, step: real, heights: seq<real>)
    requires R >= 0 && |heights| == VertexCount(R)
    ensures var (hL, hR, hD, hU) := Neighbours(R, x, z, heights);
            && Dot(Normal(R, x, z, step, heights), Vec3(2.0 * step, hR - hL, 0.0)) == 0.0
            && Dot(Normal(R, x, z, step, heights), Vec3(0.0, hU - hD, 2.0 * step)) == 0.0
  {
  }

  /** Over flat water every normal points straight up. */
  lemma FlatWaterNormal(R: int, x: int, z: int, step: real, heights: seq<real>, h: real)
    requires R >= 0 && |heights| == VertexCount(R)
    requires forall k :: 0 <= k < |heights| ==> heights[k] == h
    ensures Normal(R, x, z, step, heights) == Vec3(0.0, 2.0 * step, 0.0)
  {
  }

  /** At the border the missing neighbour is the vertex itself, a one-sided difference. */
  lemma BorderNeighbours(R: int, z: int, heights: seq<real>)
    requires R >= 0 && 0 <= z <= R && |heights| == VertexCount(R)
    ensures Neighbours(R, 0, z, heights).0 == heights[GridIndex(R + 1, 0, z)]
    ensures Neighbours(R, R, z, heights).1 == heights[GridIndex(R + 1, R, z)]
  {
  }
}
