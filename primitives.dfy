/**
 * The procedural meshes of lab8/lab08-lighting/primitives.js.  Each `getMesh` first looks
 * its name up in the global `MeshCache` and returns the stored mesh on a hit; otherwise it
 * fills a positions, a normals and an indices array with nested loops and stores the mesh
 * under that name.
 *
 * The loops are the `...Buffers` methods (an inner loop whose pass is a whole stack or
 * ring is a method of its own), each proved to compute a specification written with
 * `Join` (concatenation over a range); the counts, index bounds and normals the meshes
 * need are lemmas about those specifications.  The sine, cosine and pi that the sphere
 * and cylinder use are a parameter (`Trig`).
 */
module Primitives {
  import opened Layout
  import opened Sums
  import opened Trigonometry

  /** A mesh as it is handed to `GLUtils.createMesh` and stored in the cache. */
  datatype Mesh = Mesh(name: string, indices: seq<int>, positions: seq<real>, normals: seq<real>)

  /**
   * A mesh `gl.drawElements` can draw as `triangles` triangles over `vertices` vertices:
   * three position floats and three normal floats per vertex, three indices per triangle,
   * and every index naming one of the vertices.
   */
  predicate Drawable(mesh: Mesh, vertices: int, triangles: int)
  {
    |mesh.positions| == 3 * vertices && |mesh.normals| == 3 * vertices && |mesh.indices| == 3 * triangles
    && forall e :: e in mesh.indices ==> 0 <= e < vertices
  }

  /** x / y, a term of its own like `Times`, so that equal quotients meet term for term. */
  function Ratio(x: real, y: real): real
    requires y != 0.0
  {
    x / y
  }

  /** f(0) + f(1) + ... + f(n - 1), where + concatenates. */
  function Join<T>(n: nat, f: int -> seq<T>): seq<T>
  {
    if n == 0 then [] else Join(n - 1, f) + f(n - 1)
  }

  lemma {:induction false} JoinLength<T>(n: nat, f: int -> seq<T>, c: nat)
    requires forall k :: 0 <= k < n ==> |f(k)| == c
    ensures |Join(n, f)| == c * n
  {
    if n > 0 {
      JoinLength(n - 1, f, c);
    }
  }

  lemma {:induction false} JoinBelow(n: nat, f: int -> seq<int>, bound: int)
    requires forall k, e :: 0 <= k < n && e in f(k) ==> 0 <= e < bound
    ensures forall e :: e in Join(n, f) ==> 0 <= e < bound
  {
    if n > 0 {
      JoinBelow(n - 1, f, bound);
    }
  }

  /** n copies of the triple v: every group of three entries is v. */
  lemma {:induction false} JoinTriples<T>(n: nat, f: int -> seq<T>, v: seq<T>)
    requires |v| == 3 && forall k :: 0 <= k < n ==> f(k) == v
    ensures |Join(n, f)| == 3 * n
    ensures forall t :: 0 <= t < n ==> Join(n, f)[3 * t..3 * t + 3] == v
  {
    if n > 0 {
      JoinTriples(n - 1, f, v);
      var s := Join(n, f);
      assert s == Join(n - 1, f) + v;
      forall t | 0 <= t < n ensures s[3 * t..3 * t + 3] == v {
        if t < n - 1 {
          assert s[3 * t..3 * t + 3] == Join(n - 1, f)[3 * t..3 * t + 3];
        }
      }
    }
  }

  /** Two copies of a constant run, one after the other, are one longer run. */
  lemma {:induction false} JoinConstAppend<T>(a: nat, b: nat, f: int -> seq<T>, v: seq<T>)
    requires forall k :: 0 <= k < a + b ==> f(k) == v
    ensures Join(a, f) + Join(b, f) == Join(a + b, f)
  {
    if b > 0 {
      JoinConstAppend(a, b - 1, f, v);
    }
  }

  /** n rows of m copies of the same v are m n copies of v. */
  lemma {:induction false} JoinRows<T>(m: nat, n: nat, f: int -> seq<T>, rows: int -> seq<T>, v: seq<T>)
    requires forall k :: 0 <= k < m * n ==> f(k) == v
    requires forall k :: 0 <= k < n ==> rows(k) == Join(m, f)
    ensures Join(n, rows) == Join(m * n, f)
  {
    if n > 0 {
      MulMono(m, n - 1, n);
      JoinRows(m, n - 1, f, rows, v);
      assert m * (n - 1) + m == m * n;
      forall k | 0 <= k < m ensures f(k) == v {
        MulMono(m, 1, n);
      }
      JoinConstAppend(m * (n - 1), m, f, v);
    }
  }

  /** The `MeshCache` dictionary: meshes by name. */
  class MeshCache {
    var meshes: map<string, Mesh>

    constructor ()
      ensures meshes == map[]
    {
      meshes := map[];
    }
  }

  // ---------------------------------------------------------------- decimal text

  function Digit(d: int): char
    requires 0 <= d < 10
  {
    "0123456789"[d]
  }

  function NatText(n: nat): string
  {
    if n < 10 then [Digit(n)] else NatText(n / 10) + [Digit(n % 10)]
  }

  /** A whole number as JavaScript's string concatenation writes it. */
  function IntText(n: int): string
  {
    if n < 0 then "-" + NatText(-n) else NatText(n)
  }

  // ---------------------------------------------------------------- Plane

  const PlaneScale := 4.0

  /** `if(xRes < 2) xRes = 2`: the resolutions actually used. */
  function AtLeastTwo(r: int): int
  {
    if r < 2 then 2 else r
  }

  /** The cache name, built from the arguments as given, before they are clamped. */
  function PlaneName(xRes: int, zRes: int): string
  {
    "plane" + IntText(xRes) + "x" + IntText(zRes)
  }

  function PlaneVertex(xRes: int, zRes: int, z: int): int -> seq<real>
    requires xRes >= 2 && zRes >= 2
  {
    x => [-PlaneScale / 2.0 + PlaneScale * ((x as real) / ((xRes - 1) as real)),
          0.0,
          PlaneScale / 2.0 - PlaneScale * ((z as real) / ((zRes - 1) as real))]
  }

  function PlaneRow(xRes: int, zRes: int): int -> seq<real>
    requires xRes >= 2 && zRes >= 2
  {
    z => Join(xRes, PlaneVertex(xRes, zRes, z))
  }

  /** Row by row (z), vertex by vertex (x), the points of a 4 x 4 grid in the XZ plane. */
  function PlanePositions(xRes: int, zRes: int): seq<real>
    requires xRes >= 2 && zRes >= 2
  {
    Join(zRes, PlaneRow(xRes, zRes))
  }

  function UpNormal(): int -> seq<real>
  {
    _ => [0.0, 1.0, 0.0]
  }

  function UpRow(xRes: int): int -> seq<real>
    requires xRes >= 0
  {
    _ => Join(xRes, UpNormal())
  }

  /** One normal per vertex, row by row like the positions. */
  function PlaneNormals(xRes: int, zRes: int): seq<real>
    requires xRes >= 2 && zRes >= 2
  {
    Join(zRes, UpRow(xRes))
  }

  /** The two triangles of the grid square whose bottom-left vertex is (x, z). */
  function PlaneQuad(xRes: int, x: int): int -> seq<int>
  {
    z =>
      var bottomLeft := x + xRes * z;
      var bottomRight := x + xRes * z + 1;
      var topLeft := x + xRes * (z + 1);
      var topRight := x + 1 + xRes * (z + 1);
      [bottomLeft, bottomRight, topLeft, topLeft, bottomRight, topRight]
  }

  function PlaneStrip(xRes: int, zRes: int): int -> seq<int>
    requires zRes >= 2
  {
    x => Join(zRes - 1, PlaneQuad(xRes, x))
  }

  /** Column by column (x), square by square (z). */
  function PlaneIndices(xRes: int, zRes: int): seq<int>
    requires xRes >= 2 && zRes >= 2
  {
    Join(xRes - 1, PlaneStrip(xRes, zRes))
  }

  /** The plane has 3 xRes zRes position floats, three per grid vertex. */
  lemma PlanePositionCount(xRes: int, zRes: int)
    requires xRes >= 2 && zRes >= 2
    ensures |PlanePositions(xRes, zRes)| == 3 * xRes * zRes
  {
    forall z | 0 <= z < zRes ensures |PlaneRow(xRes, zRes)(z)| == 3 * xRes {
      JoinLength(xRes, PlaneVertex(xRes, zRes, z), 3);
    }
    JoinLength(zRes, PlaneRow(xRes, zRes), 3 * xRes);
  }

  /** The plane has one normal per vertex, each (0, 1, 0). */
  lemma PlaneNormalsUp(xRes: int, zRes: int)
    requires xRes >= 2 && zRes >= 2
    ensures PlaneNormals(xRes, zRes) == Join(xRes * zRes, UpNormal())
    ensures |PlaneNormals(xRes, zRes)| == 3 * xRes * zRes
    ensures forall t :: 0 <= t < xRes * zRes ==> PlaneNormals(xRes, zRes)[3 * t..3 * t + 3] == [0.0, 1.0, 0.0]
  {
    var n := xRes * zRes;
    JoinRows(xRes, zRes, UpNormal(), UpRow(xRes), [0.0, 1.0, 0.0]);
    JoinTriples(n, UpNormal(), [0.0, 1.0, 0.0]);
    assert 3 * n == 3 * xRes * zRes;
  }

  lemma PlaneQuadBelow(xRes: int, zRes: int, x: int, z: int)
    requires xRes >= 2 && zRes >= 2 && 0 <= x < xRes - 1 && 0 <= z < zRes - 1
    ensures forall e :: e in PlaneQuad(xRes, x)(z) ==> 0 <= e < xRes * zRes
  {
    MulMono(xRes, z + 1, zRes - 1);
    MulMono(xRes, 0, z);
    assert xRes * (zRes - 1) == xRes * zRes - xRes;
  }

  /** The plane has 6 (xRes - 1)(zRes - 1) indices, two triangles per grid square. */
  lemma PlaneIndexCount(xRes: int, zRes: int)
    requires xRes >= 2 && zRes >= 2
    ensures |PlaneIndices(xRes, zRes)| == 6 * (xRes - 1) * (zRes - 1)
  {
    forall x | 0 <= x < xRes - 1 ensures |PlaneStrip(xRes, zRes)(x)| == 6 * (zRes - 1) {
      JoinLength(zRes - 1, PlaneQuad(xRes, x), 6);
    }
    JoinLength(xRes - 1, PlaneStrip(xRes, zRes), 6 * (zRes - 1));
  }

  /** Every index of the plane names one of its xRes zRes vertices. */
  lemma PlaneIndicesBelow(xRes: int, zRes: int)
    requires xRes >= 2 && zRes >= 2
    ensures forall e :: e in PlaneIndices(xRes, zRes) ==> 0 <= e < xRes * zRes
  {
    forall x | 0 <= x < xRes - 1 ensures forall e :: e in PlaneStrip(xRes, zRes)(x) ==> 0 <= e < xRes * zRes {
      forall z | 0 <= z < zRes - 1 ensures forall e :: e in PlaneQuad(xRes, x)(z) ==> 0 <= e < xRes * zRes {
        PlaneQuadBelow(xRes, zRes, x, z);
      }
      JoinBelow(zRes - 1, PlaneQuad(xRes, x), xRes * zRes);
    }
    JoinBelow(xRes - 1, PlaneStrip(xRes, zRes), xRes * zRes);
  }

  /** The grid runs from (-2, 0, 2) at its first vertex to (2, 0, -2) at its last. */
  lemma PlaneCorners(xRes: int, zRes: int)
    requires xRes >= 2 && zRes >= 2
    ensures PlaneVertex(xRes, zRes, 0)(0) == [-2.0, 0.0, 2.0]
    ensures PlaneVertex(xRes, zRes, zRes - 1)(xRes - 1) == [2.0, 0.0, -2.0]
  {
    assert ((xRes - 1) as real) / ((xRes - 1) as real) == 1.0;
    assert ((zRes - 1) as real) / ((zRes - 1) as real) == 1.0;
  }

  /** The vertex loops of `Plane.getMesh`, for resolutions already clamped to at least 2. */
  method PlaneVertexBuffers(xRes: int, zRes: int) returns (positions: seq<real>, normals: seq<real>)
    requires xRes >= 2 && zRes >= 2
    ensures positions == PlanePositions(xRes, zRes) && normals == PlaneNormals(xRes, zRes)
    ensures |positions| == 3 * xRes * zRes == |normals|
  {
    positions, normals := [], [];
    var z := 0;
    while z < zRes
      invariant 0 <= z <= zRes
      invariant positions == Join(z, PlaneRow(xRes, zRes))
      invariant normals == Join(z, UpRow(xRes))
    {
      var posZ := PlaneScale / 2.0 - PlaneScale * ((z as real) / ((zRes - 1) as real));
      var x := 0;
      while x < xRes
        invariant 0 <= x <= xRes
        invariant positions == Join(z, PlaneRow(xRes, zRes)) + Join(x, PlaneVertex(xRes, zRes, z))
        invariant normals == Join(z, UpRow(xRes)) + Join(x, UpNormal())
      {
        var posX := -PlaneScale / 2.0 + PlaneScale * ((x as real) / ((xRes - 1) as real));
        positions := positions + [posX, 0.0, posZ];
        normals := normals + [0.0, 1.0, 0.0];
        x := x + 1;
      }
      z := z + 1;
    }
    PlanePositionCount(xRes, zRes);
    PlaneNormalsUp(xRes, zRes);
  }

  /** The index loops of `Plane.getMesh`. */
  method PlaneIndexBuffer(xRes: int, zRes: int) returns (indices: seq<int>)
    requires xRes >= 2 && zRes >= 2
    ensures indices == PlaneIndices(xRes, zRes)
    ensures |indices| == 6 * (xRes - 1) * (zRes - 1)
    ensures forall e :: e in indices ==> 0 <= e < xRes * zRes
  {
    indices := [];
    var x := 0;
    while x < xRes - 1
      invariant 0 <= x <= xRes - 1
      invariant indices == Join(x, PlaneStrip(xRes, zRes))
    {
      var z := 0;
      while z < zRes - 1
        invariant 0 <= z <= zRes - 1
        invariant indices == Join(x, PlaneStrip(xRes, zRes)) + Join(z, PlaneQuad(xRes, x))
      {
        var bottomLeft := x + xRes * z;
        var bottomRight := x + xRes * z + 1;
        var topLeft := x + xRes * (z + 1);
        var topRight := x + 1 + xRes * (z + 1);
        indices := indices + [bottomLeft, bottomRight, topLeft];
        indices := indices + [topLeft, bottomRight, topRight];
        z := z + 1;
      }
      x := x + 1;
    }
    PlaneIndexCount(xRes, zRes);
    PlaneIndicesBelow(xRes, zRes);
  }

  /** Regrouping the counts of a grid of a by b vertices. */
  lemma GridCounts(a: int, b: int)
    ensures 3 * a * b == 3 * (a * b) && 6 * (a - 1) * (b - 1) == 3 * (2 * (a - 1) * (b - 1))
  {
  }

  /** What `Plane.getMesh(xRes, zRes)` stores on a miss. */
  function PlaneMesh(xRes: int, zRes: int): (r: Mesh)
    ensures r.name == PlaneName(xRes, zRes)
    ensures var x, z := AtLeastTwo(xRes), AtLeastTwo(zRes);
      Drawable(r, x * z, 2 * (x - 1) * (z - 1)) && forall t :: 0 <= t < x * z ==> r.normals[3 * t..3 * t + 3] == [0.0, 1.0, 0.0]
  {
    var x, z := AtLeastTwo(xRes), AtLeastTwo(zRes);
    PlanePositionCount(x, z);
    PlaneNormalsUp(x, z);
    PlaneIndexCount(x, z);
    PlaneIndicesBelow(x, z);
    GridCounts(x, z);
    Mesh(PlaneName(xRes, zRes), PlaneIndices(x, z), PlanePositions(x, z), PlaneNormals(x, z))
  }

  /**
   * Resolutions below 2 are clamped after the cache name is made, so `getMesh(1, 1)` and
   * `getMesh(2, 2)` build the same buffers under two different names.
   */
  lemma PlaneNameBeforeClamp()
    ensures PlaneName(1, 1) != PlaneName(2, 2)
    ensures PlaneMesh(1, 1).positions == PlaneMesh(2, 2).positions
    ensures PlaneMesh(1, 1).indices == PlaneMesh(2, 2).indices
  {
    assert PlaneName(1, 1)[5] == '1' && PlaneName(2, 2)[5] == '2';
  }

  /** `Primitives.Plane.getMesh(xRes, zRes)`. */
  method GetPlane(cache: MeshCache, xRes: int, zRes: int) returns (mesh: Mesh)
    modifies cache
    ensures var name := PlaneName(xRes, zRes);
      (name in old(cache.meshes) ==> mesh == old(cache.meshes[name]) && cache.meshes == old(cache.meshes)) &&
      (name !in old(cache.meshes) ==> mesh == PlaneMesh(xRes, zRes) && cache.meshes == old(cache.meshes)[name := mesh])
  {
    var name := PlaneName(xRes, zRes);
    if name in cache.meshes {
      return cache.meshes[name];
    }
    var x, z := AtLeastTwo(xRes), AtLeastTwo(zRes);
    var positions, normals := PlaneVertexBuffers(x, z);
    var indices := PlaneIndexBuffer(x, z);
    mesh := Mesh(name, indices, positions, normals);
    cache.meshes := cache.meshes[name := mesh];
  }

  // ---------------------------------------------------------------- Sphere

  const SphereRadius := 1.0

  /**
   * Vertex j of stack i, pushed as (x, z, y): the stack angle runs from pi/2 down to
   * -pi/2, the sector angle from pi down to -pi, and the sphere's axis is the scene's y.
   */
  function SphereAt(t: Trig, sectors: int, stacks: int, i: int, j: int): seq<real>
    requires sectors >= 1 && stacks >= 1
  {
    var sectorStep := Ratio(2.0 * t.pi, sectors as real);
    var stackStep := Ratio(t.pi, stacks as real);
    var stackAngle := t.pi / 2.0 - Times(i as real, stackStep);
    var xy := SphereRadius * t.Cos(stackAngle);
    var z := SphereRadius * t.Sin(stackAngle);
    var sectorAngle := t.pi - Times(j as real, sectorStep);
    [Times(xy, t.Cos(sectorAngle)), z, Times(xy, t.Sin(sectorAngle))]
  }

  function SphereVertex(t: Trig, sectors: int, stacks: int, i: int): int -> seq<real>
    requires sectors >= 1 && stacks >= 1
  {
    j => SphereAt(t, sectors, stacks, i, j)
  }

  function SphereStack(t: Trig, sectors: int, stacks: int): int -> seq<real>
    requires sectors >= 1 && stacks >= 1
  {
    i => Join(sectors + 1, SphereVertex(t, sectors, stacks, i))
  }

  /** Stack by stack from the north pole, sector by sector. */
  function SpherePositions(t: Trig, sectors: int, stacks: int): seq<real>
    requires sectors >= 1 && stacks >= 1
  {
    Join(stacks + 1, SphereStack(t, sectors, stacks))
  }

  /** Entry by entry, s times c. */
  function Scaled(s: seq<real>, c: real): seq<real>
  {
    seq(|s|, k requires 0 <= k < |s| => s[k] * c)
  }

  /** Each normal is its vertex times lengthInv = 1 / radius. */
  function SphereNormals(t: Trig, sectors: int, stacks: int): seq<real>
    requires sectors >= 1 && stacks >= 1
  {
    Scaled(SpherePositions(t, sectors, stacks), 1.0 / SphereRadius)
  }

  /**
   * Sector j of stack i: the triangle k1, k2, k1 + 1 except on the first stack and the
   * triangle k1 + 1, k2, k2 + 1 except on the last, where k1 = i (sectors + 1) + j is on
   * stack i and k2 = k1 + sectors + 1 the vertex below it.
   */
  function SphereCell(sectors: int, stacks: int, i: int): int -> seq<int>
  {
    j =>
      var k1 := i * (sectors + 1) + j;
      var k2 := k1 + sectors + 1;
      (if i != 0 then [k1, k2, k1 + 1] else []) + (if i != stacks - 1 then [k1 + 1, k2, k2 + 1] else [])
  }

  function SphereBand(sectors: int, stacks: int): int -> seq<int>
    requires sectors >= 0
  {
    i => Join(sectors, SphereCell(sectors, stacks, i))
  }

  function SphereIndices(sectors: int, stacks: int): seq<int>
    requires sectors >= 0 && stacks >= 0
  {
    Join(stacks, SphereBand(sectors, stacks))
  }

  /** Indices one stack contributes per sector: 3 unless first, 3 more unless last. */
  function CellSize(stacks: int, i: int): nat
  {
    (if i != 0 then 3 else 0) + (if i != stacks - 1 then 3 else 0)
  }

  /** Indices per sector of the first n stacks, for n <= stacks. */
  function BandsSize(stacks: int, n: int): int
  {
    3 * (if n > 0 then n - 1 else 0) + 3 * (if n == stacks then n - 1 else n)
  }

  lemma Distribute(m: int, a: int, b: int)
    ensures m * (a + b) == m * a + m * b
  {
  }

  lemma SphereBandLength(sectors: int, stacks: int, i: int)
    requires sectors >= 0
    ensures |SphereBand(sectors, stacks)(i)| == sectors * CellSize(stacks, i)
  {
    JoinLength(sectors, SphereCell(sectors, stacks, i), CellSize(stacks, i));
  }

  lemma {:induction false} SphereBandsLength(sectors: int, stacks: int, n: nat)
    requires sectors >= 0 && stacks >= 1 && n <= stacks
    ensures |Join(n, SphereBand(sectors, stacks))| == sectors * BandsSize(stacks, n)
  {
    if n > 0 {
      SphereBandsLength(sectors, stacks, n - 1);
      SphereBandLength(sectors, stacks, n - 1);
      var before, band := BandsSize(stacks, n - 1), CellSize(stacks, n - 1);
      assert BandsSize(stacks, n) == before + band;
      Distribute(sectors, before, band);
    }
  }

  lemma SphereCellBelow(sectors: int, stacks: int, i: int, j: int)
    requires sectors >= 1 && stacks >= 1 && 0 <= i < stacks && 0 <= j < sectors
    ensures forall e :: e in SphereCell(sectors, stacks, i)(j) ==> 0 <= e < (stacks + 1) * (sectors + 1)
  {
    MulMono(sectors + 1, i, stacks - 1);
    MulMono(sectors + 1, 0, i);
    assert (sectors + 1) * (stacks - 1) == (stacks + 1) * (sectors + 1) - 2 * (sectors + 1);
  }

  /**
   * The sphere has (stacks + 1)(sectors + 1) vertices, and the normal of each is the
   * vertex itself: it is the unit sphere.
   */
  lemma SphereVertexCounts(t: Trig, sectors: int, stacks: int)
    requires sectors >= 1 && stacks >= 1
    ensures |SpherePositions(t, sectors, stacks)| == 3 * (stacks + 1) * (sectors + 1)
    ensures SphereNormals(t, sectors, stacks) == SpherePositions(t, sectors, stacks)
  {
    forall i | 0 <= i < stacks + 1 ensures |SphereStack(t, sectors, stacks)(i)| == 3 * (sectors + 1) {
      JoinLength(sectors + 1, SphereVertex(t, sectors, stacks, i), 3);
    }
    JoinLength(stacks + 1, SphereStack(t, sectors, stacks), 3 * (sectors + 1));
    var p := SpherePositions(t, sectors, stacks);
    assert Scaled(p, 1.0 / SphereRadius) == p;
  }

  /** 6 sectors (stacks - 1) indices: the poles' stacks have one triangle per sector, the others two. */
  lemma SphereIndexCount(sectors: int, stacks: int)
    requires sectors >= 1 && stacks >= 1
    ensures |SphereIndices(sectors, stacks)| == 6 * sectors * (stacks - 1)
  {
    SphereBandsLength(sectors, stacks, stacks);
    var perSector := BandsSize(stacks, stacks);
    assert perSector == 6 * (stacks - 1);
    calc {
      sectors * perSector;
      sectors * (6 * (stacks - 1));
      6 * sectors * (stacks - 1);
    }
  }

  /** Every index of the sphere names one of its (stacks + 1)(sectors + 1) vertices. */
  lemma SphereIndicesBelow(sectors: int, stacks: int)
    requires sectors >= 1 && stacks >= 1
    ensures forall e :: e in SphereIndices(sectors, stacks) ==> 0 <= e < (stacks + 1) * (sectors + 1)
  {
    var bound := (stacks + 1) * (sectors + 1);
    forall i | 0 <= i < stacks ensures forall e :: e in SphereBand(sectors, stacks)(i) ==> 0 <= e < bound {
      forall j | 0 <= j < sectors ensures forall e :: e in SphereCell(sectors, stacks, i)(j) ==> 0 <= e < bound {
        SphereCellBelow(sectors, stacks, i, j);
      }
      JoinBelow(sectors, SphereCell(sectors, stacks, i), bound);
    }
    JoinBelow(stacks, SphereBand(sectors, stacks), bound);
  }

  /** One pass of the outer vertex loop of `Sphere.getMesh`: the vertices of stack i. */
  method SphereStackVertices(t: Trig, sectorCount: int, stackCount: int, i: int, positions0: seq<real>, normals0: seq<real>)
    returns (positions: seq<real>, normals: seq<real>)
    requires sectorCount >= 1 && stackCount >= 1
    ensures positions == positions0 + SphereStack(t, sectorCount, stackCount)(i)
    ensures normals == normals0 + SphereStack(t, sectorCount, stackCount)(i)
  {
    var radius := SphereRadius;
    var lengthInv := 1.0 / radius;
    assert lengthInv == 1.0;
    var sectorStep := Ratio(2.0 * t.pi, sectorCount as real);
    var stackStep := Ratio(t.pi, stackCount as real);
    var stackAngle := t.pi / 2.0 - Times(i as real, stackStep);
    var xy := radius * t.Cos(stackAngle);
    var z := radius * t.Sin(stackAngle);
    positions, normals := positions0, normals0;
    var j := 0;
    while j <= sectorCount
      invariant 0 <= j <= sectorCount + 1
      invariant positions == positions0 + Join(j, SphereVertex(t, sectorCount, stackCount, i))
      invariant normals == normals0 + Join(j, SphereVertex(t, sectorCount, stackCount, i))
    {
      var sectorAngle := t.pi - Times(j as real, sectorStep);
      var x := Times(xy, t.Cos(sectorAngle));
      var y := Times(xy, t.Sin(sectorAngle));
      assert SphereAt(t, sectorCount, stackCount, i, j) == [x, z, y];
      positions := positions + [x, z, y];
      normals := normals + [x * lengthInv, z * lengthInv, y * lengthInv];
      j := j + 1;
    }
  }

  /** The vertex loops of `Sphere.getMesh(sectorCount, stackCount)`. */
  method SphereVertexBuffers(t: Trig, sectorCount: int, stackCount: int) returns (positions: seq<real>, normals: seq<real>)
    requires sectorCount >= 1 && stackCount >= 1
    ensures positions == SpherePositions(t, sectorCount, stackCount)
    ensures normals == SphereNormals(t, sectorCount, stackCount)
    ensures normals == positions && |positions| == 3 * (stackCount + 1) * (sectorCount + 1)
  {
    positions, normals := [], [];
    var i := 0;
    while i <= stackCount
      invariant 0 <= i <= stackCount + 1
      invariant positions == Join(i, SphereStack(t, sectorCount, stackCount))
      invariant normals == positions
    {
      positions, normals := SphereStackVertices(t, sectorCount, stackCount, i, positions, normals);
      i := i + 1;
    }
    SphereVertexCounts(t, sectorCount, stackCount);
  }

    /** One pass of the outer index loop of `Sphere.getMesh`: the triangles of stack i. */
  method SphereBandIndices(sectorCount: int, stackCount: int, i: int, indices0: seq<int>) returns (indices: seq<int>)
    requires sectorCount >= 1 && stackCount >= 1
    ensures indices == indices0 + SphereBand(sectorCount, stackCount)(i)
  {
    indices := indices0;
    var k1 := i * (sectorCount + 1);
    var k2 := k1 + sectorCount + 1;
    var j := 0;
    while j < sectorCount
      invariant 0 <= j <= sectorCount
      invariant k1 == i * (sectorCount + 1) + j && k2 == k1 + sectorCount + 1
      invariant indices == indices0 + Join(j, SphereCell(sectorCount, stackCount, i))
    {
      var before := indices;
      if i != 0 {
        indices := indices + [k1, k2, k1 + 1];
      }
      if i != stackCount - 1 {
        indices := indices + [k1 + 1, k2, k2 + 1];
      }
      assert indices == before + SphereCell(sectorCount, stackCount, i)(j);
      j, k1, k2 := j + 1, k1 + 1, k2 + 1;
    }
  }

  /** The index loops of `Sphere.getMesh(sectorCount, stackCount)`. */
  method SphereIndexBuffer(sectorCount: int, stackCount: int) returns (indices: seq<int>)
    requires sectorCount >= 1 && stackCount >= 1
    ensures indices == SphereIndices(sectorCount, stackCount)
    ensures |indices| == 6 * sectorCount * (stackCount - 1)
    ensures forall e :: e in indices ==> 0 <= e < (stackCount + 1) * (sectorCount + 1)
  {
    indices := [];
    var i := 0;
    while i < stackCount
      invariant 0 <= i <= stackCount
      invariant indices == Join(i, SphereBand(sectorCount, stackCount))
    {
      indices := SphereBandIndices(sectorCount, stackCount, i, indices);
      i := i + 1;
    }
    SphereIndexCount(sectorCount, stackCount);
    SphereIndicesBelow(sectorCount, stackCount);
    GridCounts(stackCount + 1, sectorCount + 1);
    assert 6 * sectorCount * (stackCount - 1) == 3 * (2 * sectorCount * (stackCount - 1));
  }

  /** What `Sphere.getMesh(sectorCount, stackCount)` stores on a miss, under the fixed name "sphere". */
  function SphereMesh(t: Trig, sectorCount: int, stackCount: int): (r: Mesh)
    requires sectorCount >= 1 && stackCount >= 1
    ensures r.name == "sphere" && r.normals == r.positions
    ensures Drawable(r, (stackCount + 1) * (sectorCount + 1), 2 * sectorCount * (stackCount - 1))
  {
    SphereVertexCounts(t, sectorCount, stackCount);
    SphereIndexCount(sectorCount, stackCount);
    SphereIndicesBelow(sectorCount, stackCount);
    GridCounts(stackCount + 1, sectorCount + 1);
    assert 6 * sectorCount * (stackCount - 1) == 3 * (2 * sectorCount * (stackCount - 1));
    Mesh("sphere", SphereIndices(sectorCount, stackCount), SpherePositions(t, sectorCount, stackCount), SphereNormals(t, sectorCount, stackCount))
  }

  /**
   * `Primitives.Sphere.getMesh(sectorCount, stackCount)`.  The key does not depend on the
   * arguments, so once a sphere is cached every later call returns it whatever it asks for.
   */
  method GetSphere(cache: MeshCache, t: Trig, sectorCount: int, stackCount: int) returns (mesh: Mesh)
    requires sectorCount >= 1 && stackCount >= 1
    modifies cache
    ensures "sphere" in old(cache.meshes) ==> mesh == old(cache.meshes["sphere"]) && cache.meshes == old(cache.meshes)
    ensures "sphere" !in old(cache.meshes) ==>
      mesh == SphereMesh(t, sectorCount, stackCount) && cache.meshes == old(cache.meshes)["sphere" := mesh]
  {
    if "sphere" in cache.meshes {
      return cache.meshes["sphere"];
    }
    var positions, normals := SphereVertexBuffers(t, sectorCount, stackCount);
    var indices := SphereIndexBuffer(sectorCount, stackCount);
    mesh := Mesh("sphere", indices, positions, normals);
    cache.meshes := cache.meshes["sphere" := mesh];
  }

  // ---------------------------------------------------------------- Cylinder

  const CylinderRadius := 0.5
  const CylinderHeight := 2.0
  /** The side is built as two rings of vertices, the bottom one and the top one. */
  const RingCount := 2

  function SectorStep(t: Trig, sectors: int): real
    requires sectors >= 1
  {
    Ratio(2.0 * t.pi, sectors as real)
  }

  /** Rim vertex i of the top cap. */
  function TopRim(t: Trig, sectors: int): int -> seq<real>
    requires sectors >= 1
  {
    i =>
      var sectorAngle := Times(i as real, SectorStep(t, sectors));
      [t.Sin(sectorAngle) * CylinderRadius, 0.5 * CylinderHeight, -t.Cos(sectorAngle) * CylinderRadius]
  }

  /** Rim vertex i of the bottom cap, which runs the other way round. */
  function BottomRim(t: Trig, sectors: int): int -> seq<real>
    requires sectors >= 1
  {
    i =>
      var sectorAngle := t.pi - Times(i as real, SectorStep(t, sectors));
      [t.Sin(sectorAngle) * CylinderRadius, -0.5 * CylinderHeight, t.Cos(sectorAngle) * CylinderRadius]
  }

  /** Side vertex j of ring i (i = 0 at the bottom, 1 at the top). */
  function SideVertex(t: Trig, sectors: int, i: int): int -> seq<real>
    requires sectors >= 1
  {
    j =>
      var sectorAngle := t.pi - Times(j as real, SectorStep(t, sectors));
      [t.Sin(sectorAngle) * CylinderRadius, CylinderHeight * ((i as real) - 0.5), t.Cos(sectorAngle) * CylinderRadius]
  }

  /** The side normal points away from the axis: (x, 0, z) times lengthInv = 1 / radius. */
  function SideNormal(t: Trig, sectors: int, i: int): int -> seq<real>
    requires sectors >= 1
  {
    j =>
      var lengthInv := 1.0 / CylinderRadius;
      var sectorAngle := t.pi - Times(j as real, SectorStep(t, sectors));
      [t.Sin(sectorAngle) * CylinderRadius * lengthInv, 0.0, t.Cos(sectorAngle) * CylinderRadius * lengthInv]
  }

  function SideRing(t: Trig, sectors: int): int -> seq<real>
    requires sectors >= 1
  {
    i => Join(sectors + 1, SideVertex(t, sectors, i))
  }

  function SideNormalRing(t: Trig, sectors: int): int -> seq<real>
    requires sectors >= 1
  {
    i => Join(sectors + 1, SideNormal(t, sectors, i))
  }

  function DownNormal(): int -> seq<real>
  {
    _ => [0.0, -1.0, 0.0]
  }

  /** Top centre and rim, bottom centre and rim, then the two side rings. */
  function CylinderPositions(t: Trig, sectors: int): seq<real>
    requires sectors >= 1
  {
    [0.0, 0.5 * CylinderHeight, 0.0] + Join(sectors, TopRim(t, sectors))
    + [0.0, -0.5 * CylinderHeight, 0.0] + Join(sectors, BottomRim(t, sectors))
    + Join(RingCount, SideRing(t, sectors))
  }

  function CylinderNormals(t: Trig, sectors: int): seq<real>
    requires sectors >= 1
  {
    [0.0, 1.0, 0.0] + Join(sectors, UpNormal())
    + [0.0, -1.0, 0.0] + Join(sectors, DownNormal())
    + Join(RingCount, SideNormalRing(t, sectors))
  }

  /** Triangle i of the top fan: rim vertex i + 1, the centre 0, and the next rim vertex, wrapping to 1. */
  function TopFan(sectors: int): int -> seq<int>
  {
    i => [i + 1, 0, if i + 2 <= sectors then i + 2 else 1]
  }

  /** Triangle i of the bottom fan around the centre start = sectors + 1, wrapping to start + 1. */
  function BottomFan(sectors: int): int -> seq<int>
  {
    k =>
      var start := sectors + 1;
      var i := start + k;
      [start, i + 1, if i + 2 <= start + sectors then i + 2 else start + 1]
  }

  /** Square j of the side, between the rings starting at 2 sectors + 2 and 3 sectors + 3. */
  function SideQuad(sectors: int): int -> seq<int>
  {
    j =>
      var k1 := sectors * 2 + 2 + j;
      var k2 := k1 + sectors + 1;
      [k1, k2, k1 + 1, k1 + 1, k2, k2 + 1]
  }

  function CylinderIndices(sectors: int): seq<int>
    requires sectors >= 0
  {
    Join(sectors, TopFan(sectors)) + Join(sectors, BottomFan(sectors)) + Join(sectors, SideQuad(sectors))
  }

  /** The cylinder has 4 sectors + 4 vertices and a normal for each. */
  lemma CylinderVertexCount(t: Trig, sectors: int)
    requires sectors >= 1
    ensures |CylinderPositions(t, sectors)| == 3 * (4 * sectors + 4) == |CylinderNormals(t, sectors)|
  {
    JoinLength(sectors, TopRim(t, sectors), 3);
    JoinLength(sectors, BottomRim(t, sectors), 3);
    JoinLength(sectors, UpNormal(), 3);
    JoinLength(sectors, DownNormal(), 3);
    forall i | 0 <= i < 2
      ensures |SideRing(t, sectors)(i)| == 3 * (sectors + 1) && |SideNormalRing(t, sectors)(i)| == 3 * (sectors + 1)
    {
      JoinLength(sectors + 1, SideVertex(t, sectors, i), 3);
      JoinLength(sectors + 1, SideNormal(t, sectors, i), 3);
    }
    JoinLength(2, SideRing(t, sectors), 3 * (sectors + 1));
    JoinLength(2, SideNormalRing(t, sectors), 3 * (sectors + 1));
  }

  /**
   * The normals of the top cap's sectors + 1 vertices are (0, 1, 0) and those of the
   * bottom cap's (0, -1, 0): the normals start with sectors + 1 copies of the one and
   * then as many copies of the other.
   */
  lemma CylinderCapNormals(t: Trig, sectors: int)
    requires sectors >= 1
    ensures Join(sectors + 1, UpNormal()) + Join(sectors + 1, DownNormal()) <= CylinderNormals(t, sectors)
  {
    JoinConstAppend(1, sectors, UpNormal(), [0.0, 1.0, 0.0]);
    JoinConstAppend(1, sectors, DownNormal(), [0.0, -1.0, 0.0]);
    var up := Join(sectors + 1, UpNormal());
    var down := Join(sectors + 1, DownNormal());
    assert CylinderNormals(t, sectors) == up + down + Join(RingCount, SideNormalRing(t, sectors));
  }

  /** The cylinder has 12 sectors indices, and each names one of its 4 sectors + 4 vertices. */
  lemma CylinderIndexCounts(sectors: int)
    requires sectors >= 1
    ensures |CylinderIndices(sectors)| == 12 * sectors
    ensures forall e :: e in CylinderIndices(sectors) ==> 0 <= e < 4 * sectors + 4
  {
    JoinLength(sectors, TopFan(sectors), 3);
    JoinLength(sectors, BottomFan(sectors), 3);
    JoinLength(sectors, SideQuad(sectors), 6);
    JoinBelow(sectors, TopFan(sectors), 4 * sectors + 4);
    JoinBelow(sectors, BottomFan(sectors), 4 * sectors + 4);
    JoinBelow(sectors, SideQuad(sectors), 4 * sectors + 4);
  }

  /** The last triangle of each cap fan closes the fan on the cap's first rim vertex. */
  lemma CylinderFansWrap(sectors: int)
    requires sectors >= 1
    ensures TopFan(sectors)(sectors - 1) == [sectors, 0, 1]
    ensures BottomFan(sectors)(sectors - 1) == [sectors + 1, 2 * sectors + 1, sectors + 2]
    ensures forall i :: 0 <= i < sectors - 1 ==> TopFan(sectors)(i) == [i + 1, 0, i + 2]
  {
  }

  /** The rim loop of the first circle of `Cylinder.getMesh(sectorCount)`. */
  method CylinderTopRim(t: Trig, sectorCount: int, positions0: seq<real>, normals0: seq<real>)
    returns (positions: seq<real>, normals: seq<real>)
    requires sectorCount >= 1
    ensures positions == positions0 + Join(sectorCount, TopRim(t, sectorCount))
    ensures normals == normals0 + Join(sectorCount, UpNormal())
  {
    var radius := CylinderRadius;
    var sectorStep := Ratio(2.0 * t.pi, sectorCount as real);
    var y := 0.5 * CylinderHeight;
    positions, normals := positions0, normals0;
    var i := 0;
    while i < sectorCount
      invariant 0 <= i <= sectorCount
      invariant positions == positions0 + Join(i, TopRim(t, sectorCount))
      invariant normals == normals0 + Join(i, UpNormal())
    {
      var sectorAngle := Times(i as real, sectorStep);
      var x := t.Sin(sectorAngle);
      var z := -t.Cos(sectorAngle);
      assert TopRim(t, sectorCount)(i) == [x * radius, y, z * radius];
      positions := positions + [x * radius, y, z * radius];
      normals := normals + [0.0, 1.0, 0.0];
      i := i + 1;
    }
  }

  /** The rim loop of the second circle of `Cylinder.getMesh(sectorCount)`. */
  method CylinderBottomRim(t: Trig, sectorCount: int, positions0: seq<real>, normals0: seq<real>)
    returns (positions: seq<real>, normals: seq<real>)
    requires sectorCount >= 1
    ensures positions == positions0 + Join(sectorCount, BottomRim(t, sectorCount))
    ensures normals == normals0 + Join(sectorCount, DownNormal())
  {
    var radius := CylinderRadius;
    var sectorStep := Ratio(2.0 * t.pi, sectorCount as real);
    var y := -0.5 * CylinderHeight;
    positions, normals := positions0, normals0;
    var i := 0;
    while i < sectorCount
      invariant 0 <= i <= sectorCount
      invariant positions == positions0 + Join(i, BottomRim(t, sectorCount))
      invariant normals == normals0 + Join(i, DownNormal())
    {
      var sectorAngle := t.pi - Times(i as real, sectorStep);
      var x := t.Sin(sectorAngle);
      var z := t.Cos(sectorAngle);
      assert BottomRim(t, sectorCount)(i) == [x * radius, y, z * radius];
      positions := positions + [x * radius, y, z * radius];
      normals := normals + [0.0, -1.0, 0.0];
      i := i + 1;
    }
  }

  /** One pass of the side loop of `Cylinder.getMesh(sectorCount)`: ring i of the side. */
  method CylinderSideRing(t: Trig, sectorCount: int, i: int, positions0: seq<real>, normals0: seq<real>)
    returns (positions: seq<real>, normals: seq<real>)
    requires sectorCount >= 1
    ensures positions == positions0 + SideRing(t, sectorCount)(i)
    ensures normals == normals0 + SideNormalRing(t, sectorCount)(i)
  {
    var radius := CylinderRadius;
    var lengthInv := 1.0 / radius;
    assert lengthInv == 2.0;
    var sectorStep := Ratio(2.0 * t.pi, sectorCount as real);
    var y := CylinderHeight * ((i as real) - 0.5);
    positions, normals := positions0, normals0;
    var j := 0;
    while j <= sectorCount
      invariant 0 <= j <= sectorCount + 1
      invariant positions == positions0 + Join(j, SideVertex(t, sectorCount, i))
      invariant normals == normals0 + Join(j, SideNormal(t, sectorCount, i))
    {
      var sectorAngle := t.pi - Times(j as real, sectorStep);
      var x := t.Sin(sectorAngle) * radius;
      var z := t.Cos(sectorAngle) * radius;
      assert SideVertex(t, sectorCount, i)(j) == [x, y, z];
      assert SideNormal(t, sectorCount, i)(j) == [x * lengthInv, 0.0, z * lengthInv];
      positions := positions + [x, y, z];
      normals := normals + [x * lengthInv, 0.0, z * lengthInv];
      j := j + 1;
    }
  }

  /** The side loop of `Cylinder.getMesh(sectorCount)`: the bottom ring, then the top ring. */
  method CylinderSide(t: Trig, sectorCount: int, positions0: seq<real>, normals0: seq<real>)
    returns (positions: seq<real>, normals: seq<real>)
    requires sectorCount >= 1
    ensures positions == positions0 + Join(RingCount, SideRing(t, sectorCount))
    ensures normals == normals0 + Join(RingCount, SideNormalRing(t, sectorCount))
  {
    positions, normals := positions0, normals0;
    var i := 0;
    while i < 2
      invariant 0 <= i <= 2
      invariant positions == positions0 + Join(i, SideRing(t, sectorCount))
      invariant normals == normals0 + Join(i, SideNormalRing(t, sectorCount))
    {
      ghost var ring, normalRing := SideRing(t, sectorCount)(i), SideNormalRing(t, sectorCount)(i);
      assert positions0 + Join(i + 1, SideRing(t, sectorCount)) == positions + ring;
      assert normals0 + Join(i + 1, SideNormalRing(t, sectorCount)) == normals + normalRing;
      positions, normals := CylinderSideRing(t, sectorCount, i, positions, normals);
      i := i + 1;
    }
  }

  /** The vertex loops of `Cylinder.getMesh(sectorCount)`: the two caps, then the side. */
  method CylinderVertexBuffers(t: Trig, sectorCount: int) returns (positions: seq<real>, normals: seq<real>)
    requires sectorCount >= 1
    ensures positions == CylinderPositions(t, sectorCount)
    ensures normals == CylinderNormals(t, sectorCount)
    ensures |positions| == 3 * (4 * sectorCount + 4) == |normals|
  {
    positions, normals := CylinderTopRim(t, sectorCount, [0.0, 0.5 * CylinderHeight, 0.0], [0.0, 1.0, 0.0]);
    positions, normals := CylinderBottomRim(t, sectorCount, positions + [0.0, -0.5 * CylinderHeight, 0.0], normals + [0.0, -1.0, 0.0]);
    positions, normals := CylinderSide(t, sectorCount, positions, normals);
    CylinderVertexCount(t, sectorCount);
  }

    /** The first index loop of `Cylinder.getMesh`: the fan of the top cap. */
  method CylinderTopFan(sectorCount: int) returns (indices: seq<int>)
    requires sectorCount >= 1
    ensures indices == Join(sectorCount, TopFan(sectorCount))
  {
    indices := [];
    var i := 0;
    while i < sectorCount
      invariant 0 <= i <= sectorCount
      invariant indices == Join(i, TopFan(sectorCount))
    {
      indices := indices + [i + 1, 0];
      if i + 2 <= sectorCount {
        indices := indices + [i + 2];
      } else {
        indices := indices + [1];
      }
      i := i + 1;
    }
  }

  /** The second index loop of `Cylinder.getMesh`: the fan of the bottom cap. */
  method CylinderBottomFan(sectorCount: int, indices0: seq<int>) returns (indices: seq<int>)
    requires sectorCount >= 1
    ensures indices == indices0 + Join(sectorCount, BottomFan(sectorCount))
  {
    indices := indices0;
    var start := sectorCount + 1;
    var i := start;
    while i < start + sectorCount
      invariant start <= i <= start + sectorCount
      invariant indices == indices0 + Join(i - start, BottomFan(sectorCount))
    {
      indices := indices + [start, i + 1];
      if i + 2 <= start + sectorCount {
        indices := indices + [i + 2];
      } else {
        indices := indices + [start + 1];
      }
      i := i + 1;
    }
  }

  /** The third index loop of `Cylinder.getMesh`: two triangles per side quad. */
  method CylinderSideQuads(sectorCount: int, indices0: seq<int>) returns (indices: seq<int>)
    requires sectorCount >= 1
    ensures indices == indices0 + Join(sectorCount, SideQuad(sectorCount))
  {
    indices := indices0;
    var start := sectorCount * 2 + 2;
    var k1 := start;
    var k2 := k1 + sectorCount + 1;
    var j := 0;
    while j <= sectorCount - 1
      invariant 0 <= j <= sectorCount
      invariant k1 == start + j && k2 == k1 + sectorCount + 1
      invariant indices == indices0 + Join(j, SideQuad(sectorCount))
    {
      indices := indices + [k1, k2, k1 + 1];
      indices := indices + [k1 + 1, k2, k2 + 1];
      j, k1, k2 := j + 1, k1 + 1, k2 + 1;
    }
  }

  /** The index loops of `Cylinder.getMesh(sectorCount)`: the two cap fans, then the side. */
  method CylinderIndexBuffer(sectorCount: int) returns (indices: seq<int>)
    requires sectorCount >= 1
    ensures indices == CylinderIndices(sectorCount)
    ensures |indices| == 12 * sectorCount
    ensures forall e :: e in indices ==> 0 <= e < 4 * sectorCount + 4
  {
    indices := CylinderTopFan(sectorCount);
    indices := CylinderBottomFan(sectorCount, indices);
    indices := CylinderSideQuads(sectorCount, indices);
    CylinderIndexCounts(sectorCount);
  }

  /** What `Cylinder.getMesh(sectorCount)` stores on a miss, under the fixed name "cylinder". */
  function CylinderMesh(t: Trig, sectorCount: int): (r: Mesh)
    requires sectorCount >= 1
    ensures r.name == "cylinder" && Drawable(r, 4 * sectorCount + 4, 4 * sectorCount)
  {
    CylinderVertexCount(t, sectorCount);
    CylinderIndexCounts(sectorCount);
    Mesh("cylinder", CylinderIndices(sectorCount), CylinderPositions(t, sectorCount), CylinderNormals(t, sectorCount))
  }

  /** `Primitives.Cylinder.getMesh(sectorCount)`; like the sphere, cached under a fixed key. */
  method GetCylinder(cache: MeshCache, t: Trig, sectorCount: int) returns (mesh: Mesh)
    requires sectorCount >= 1
    modifies cache
    ensures "cylinder" in old(cache.meshes) ==> mesh == old(cache.meshes["cylinder"]) && cache.meshes == old(cache.meshes)
    ensures "cylinder" !in old(cache.meshes) ==>
      mesh == CylinderMesh(t, sectorCount) && cache.meshes == old(cache.meshes)["cylinder" := mesh]
  {
    if "cylinder" in cache.meshes {
      return cache.meshes["cylinder"];
    }
    var positions, normals := CylinderVertexBuffers(t, sectorCount);
    var indices := CylinderIndexBuffer(sectorCount);
    mesh := Mesh("cylinder", indices, positions, normals);
    cache.meshes := cache.meshes["cylinder" := mesh];
  }

  // ---------------------------------------------------------------- Cube

  /** The cube's 24 vertices, four per face: front, back, top, bottom, right, left. */
  const CubeFront: seq<real> := [-0.5, 0.5, 0.5, -0.5, -0.5, 0.5, 0.5, -0.5, 0.5, 0.5, 0.5, 0.5]
  const CubeBack: seq<real> := [0.5, 0.5, -0.5, 0.5, -0.5, -0.5, -0.5, -0.5, -0.5, -0.5, 0.5, -0.5]
  const CubeTop: seq<real> := [-0.5, 0.5, -0.5, -0.5, 0.5, 0.5, 0.5, 0.5, 0.5, 0.5, 0.5, -0.5]
  const CubeBottom: seq<real> := [-0.5, -0.5, 0.5, -0.5, -0.5, -0.5, 0.5, -0.5, -0.5, 0.5, -0.5, 0.5]
  const CubeRight: seq<real> := [0.5, 0.5, 0.5, 0.5, -0.5, 0.5, 0.5, -0.5, -0.5, 0.5, 0.5, -0.5]
  const CubeLeft: seq<real> := [-0.5, 0.5, -0.5, -0.5, -0.5, -0.5, -0.5, -0.5, 0.5, -0.5, 0.5, 0.5]

  const CubePositions: seq<real> :=
    ((CubeFront + CubeBack) + (CubeTop + CubeBottom)) + (CubeRight + CubeLeft)

  /** Four copies of n: the normal of each vertex of one face. */
  function FaceNormal(n: seq<real>): seq<real>
  {
    n + n + n + n
  }

  /** The normal runs of the six faces, in the order of the faces. */
  const CubeNormalRuns: seq<seq<real>> := [
    FaceNormal([0.0, 0.0, 1.0]), FaceNormal([0.0, 0.0, -1.0]), FaceNormal([0.0, 1.0, 0.0]),
    FaceNormal([0.0, -1.0, 0.0]), FaceNormal([1.0, 0.0, 0.0]), FaceNormal([-1.0, 0.0, 0.0])]

  const CubeNormals: seq<real> :=
    ((CubeNormalRuns[0] + CubeNormalRuns[1]) + (CubeNormalRuns[2] + CubeNormalRuns[3]))
    + (CubeNormalRuns[4] + CubeNormalRuns[5])

  const CubeFaces: seq<seq<real>> := [CubeFront, CubeBack, CubeTop, CubeBottom, CubeRight, CubeLeft]

  const CubeIndices: seq<int> := [
    0, 1, 2, 2, 3, 0,
    4, 5, 6, 6, 7, 4,
    8, 9, 10, 10, 11, 8,
    12, 13, 14, 14, 15, 12,
    16, 17, 18, 18, 19, 16,
    20, 21, 22, 22, 23, 20]

  /** (x, y, z) . (nx, ny, nz) */
  function Dot3(x: real, y: real, z: real, nx: real, ny: real, nz: real): real
  {
    x * nx + y * ny + z * nz
  }

  /** The position of vertex v of a buffer pair, dotted with its normal. */
  function VertexDot(positions: seq<real>, normals: seq<real>, v: int): real
    requires 0 <= v && 3 * v + 3 <= |positions| && 3 * v + 3 <= |normals|
  {
    Dot3(positions[3 * v], positions[3 * v + 1], positions[3 * v + 2],
         normals[3 * v], normals[3 * v + 1], normals[3 * v + 2])
  }

  /** The position of vertex v of the cube, dotted with its normal. */
  function CubeDot(v: int): real
    requires 0 <= v < 24
  {
    CubeLengths();
    VertexDot(CubePositions, CubeNormals, v)
  }

  lemma CubeLengths()
    ensures |CubePositions| == 72 && |CubeNormals| == 72
  {
  }

  /** Vertex w of face k, dotted with its normal. */
  function FaceDot(k: int, w: int): real
    requires 0 <= k < 6 && 0 <= w < 4
  {
    VertexDot(CubeFaces[k], CubeNormalRuns[k], w)
  }

  /** Entry i of six faces of 12 entries each, laid out as the cube's arrays are. */
  lemma SixFacesAt<T>(f0: seq<T>, f1: seq<T>, f2: seq<T>, f3: seq<T>, f4: seq<T>, f5: seq<T>, i: int)
    requires |f0| == |f1| == |f2| == |f3| == |f4| == |f5| == 12 && 0 <= i < 72
    ensures (((f0 + f1) + (f2 + f3)) + (f4 + f5))[i] == [f0, f1, f2, f3, f4, f5][i / 12][i % 12]
  {
    var s := ((f0 + f1) + (f2 + f3)) + (f4 + f5);
    if i < 24 {
      assert s[i] == (f0 + f1)[i];
    } else if i < 48 {
      assert s[i] == (f2 + f3)[i - 24];
    } else {
      assert s[i] == (f4 + f5)[i - 48];
    }
  }

  /** Entry c of vertex v of six faces of four vertices each: entry c of vertex v % 4 of face v / 4. */
  lemma SixFacesEntry<T>(f0: seq<T>, f1: seq<T>, f2: seq<T>, f3: seq<T>, f4: seq<T>, f5: seq<T>, v: int, c: int)
    requires |f0| == |f1| == |f2| == |f3| == |f4| == |f5| == 12 && 0 <= v < 24 && 0 <= c < 3
    ensures (((f0 + f1) + (f2 + f3)) + (f4 + f5))[3 * v + c] == [f0, f1, f2, f3, f4, f5][v / 4][3 * (v % 4) + c]
  {
    assert (3 * v + c) / 12 == v / 4 && (3 * v + c) % 12 == 3 * (v % 4) + c;
    SixFacesAt(f0, f1, f2, f3, f4, f5, 3 * v + c);
  }

  /** Vertex v of six faces of four vertices each is vertex v % 4 of face v / 4. */
  lemma SixFacesVertex(f0: seq<real>, f1: seq<real>, f2: seq<real>, f3: seq<real>, f4: seq<real>, f5: seq<real>,
                       g0: seq<real>, g1: seq<real>, g2: seq<real>, g3: seq<real>, g4: seq<real>, g5: seq<real>, v: int)
    requires |f0| == |f1| == |f2| == |f3| == |f4| == |f5| == 12
    requires |g0| == |g1| == |g2| == |g3| == |g4| == |g5| == 12
    requires 0 <= v < 24
    ensures VertexDot(((f0 + f1) + (f2 + f3)) + (f4 + f5), ((g0 + g1) + (g2 + g3)) + (g4 + g5), v)
         == VertexDot([f0, f1, f2, f3, f4, f5][v / 4], [g0, g1, g2, g3, g4, g5][v / 4], v % 4)
  {
    SixFacesEntry(f0, f1, f2, f3, f4, f5, v, 0);
    SixFacesEntry(f0, f1, f2, f3, f4, f5, v, 1);
    SixFacesEntry(f0, f1, f2, f3, f4, f5, v, 2);
    SixFacesEntry(g0, g1, g2, g3, g4, g5, v, 0);
    SixFacesEntry(g0, g1, g2, g3, g4, g5, v, 1);
    SixFacesEntry(g0, g1, g2, g3, g4, g5, v, 2);
  }

  /** Every vertex of face k lies on the plane its normal points out of, at distance 1/2. */
  lemma FaceDotHalf(k: int, w: int)
    requires 0 <= k < 6 && 0 <= w < 4
    ensures FaceDot(k, w) == 0.5
  {
    var face, n := CubeFaces[k], CubeNormalRuns[k];
    if w == 0 {
      assert FaceDot(k, w) == Dot3(face[0], face[1], face[2], n[0], n[1], n[2]);
    } else if w == 1 {
      assert FaceDot(k, w) == Dot3(face[3], face[4], face[5], n[3], n[4], n[5]);
    } else if w == 2 {
      assert FaceDot(k, w) == Dot3(face[6], face[7], face[8], n[6], n[7], n[8]);
    } else {
      assert FaceDot(k, w) == Dot3(face[9], face[10], face[11], n[9], n[10], n[11]);
    }
  }

  /** The dot product of vertex v of the cube is that of vertex v % 4 of face v / 4. */
  lemma CubeVertexOnFace(v: int)
    requires 0 <= v < 24
    ensures CubeDot(v) == FaceDot(v / 4, v % 4)
  {
    var r := CubeNormalRuns;
    SixFacesVertex(CubeFront, CubeBack, CubeTop, CubeBottom, CubeRight, CubeLeft,
                   r[0], r[1], r[2], r[3], r[4], r[5], v);
  }

  /**
   * The cube has 24 vertices with a normal each; every vertex lies on the face its normal
   * points out of (position . normal = 1/2, the cube's half edge), and each of the 12
   * triangles uses only the four vertices of one face.
   */
  lemma CubeShape()
    ensures |CubePositions| == 72 && |CubeNormals| == 72 && |CubeIndices| == 36
    ensures forall v :: 0 <= v < 24 ==> CubeDot(v) == 0.5
    ensures forall k :: 0 <= k < 36 ==> 4 * (k / 6) <= CubeIndices[k] < 4 * (k / 6) + 4
  {
    forall v | 0 <= v < 24 ensures CubeDot(v) == 0.5 {
      CubeVertexOnFace(v);
      FaceDotHalf(v / 4, v % 4);
    }
  }

  /** `Primitives.Cube.getMesh()`. */
  method GetCube(cache: MeshCache) returns (mesh: Mesh)
    modifies cache
    ensures "cube" in old(cache.meshes) ==> mesh == old(cache.meshes["cube"]) && cache.meshes == old(cache.meshes)
    ensures "cube" !in old(cache.meshes) ==>
      mesh == Mesh("cube", CubeIndices, CubePositions, CubeNormals) && cache.meshes == old(cache.meshes)["cube" := mesh]
  {
    if "cube" in cache.meshes {
      return cache.meshes["cube"];
    }
    mesh := Mesh("cube", CubeIndices, CubePositions, CubeNormals);
    cache.meshes := cache.meshes["cube" := mesh];
  }
}
