/** Built-in meshes (MeshCreator.cpp): a cube, a pyramid, a textured quad and
    an untexturable grid drawn as triangle strips separated by
    primitive-restart markers. */
module MeshCreator {
  import opened Wrappers
  import opened Glm
  import opened Assets
  import opened MeshUtil

  /** The index OpenGL reads as "start a new strip" (MeshCreator.cpp, Plane.cpp). */
  const RESTART_INDEX: int := 0xFFFF
  const NORMAL_UP: Vec3 := Vec3(0.0, 1.0, 0.0)

  // ---------------------------------------------------------------- cube

  const CUBE_POSITIONS: seq<Vec3> := [
    Vec3(-1.0, 1.0, 1.0), Vec3(-1.0, -1.0, 1.0), Vec3(1.0, -1.0, 1.0), Vec3(1.0, 1.0, 1.0),
    Vec3(1.0, 1.0, -1.0), Vec3(1.0, -1.0, -1.0), Vec3(-1.0, -1.0, -1.0), Vec3(-1.0, 1.0, -1.0),
    Vec3(-1.0, 1.0, -1.0), Vec3(-1.0, 1.0, 1.0), Vec3(1.0, 1.0, 1.0), Vec3(1.0, 1.0, -1.0),
    Vec3(-1.0, -1.0, 1.0), Vec3(-1.0, -1.0, -1.0), Vec3(1.0, -1.0, -1.0), Vec3(1.0, -1.0, 1.0),
    Vec3(-1.0, 1.0, -1.0), Vec3(-1.0, -1.0, -1.0), Vec3(-1.0, -1.0, 1.0), Vec3(-1.0, 1.0, 1.0),
    Vec3(1.0, 1.0, 1.0), Vec3(1.0, -1.0, 1.0), Vec3(1.0, -1.0, -1.0), Vec3(1.0, 1.0, -1.0)]

  /** The two triangles (first, first + 1, first + 2) and (first + 2, first + 3, first)
      of the cube face whose four vertices start at `first`. */
  function QuadIndices(first: int): seq<int> {
    [first, first + 1, first + 2, first + 2, first + 3, first]
  }

  const CUBE_INDICES: seq<int> :=
    QuadIndices(0) + QuadIndices(4) + QuadIndices(8) + QuadIndices(12) + QuadIndices(16) + QuadIndices(20)

  /** Every coordinate of a corner of the cube [-1, 1]^3 is -1 or 1. */
  predicate IsCubeCorner(v: Vec3) {
    (v.x == -1.0 || v.x == 1.0) && (v.y == -1.0 || v.y == 1.0) && (v.z == -1.0 || v.z == 1.0)
  }

  /** Every index of the cube names one of its vertices. */
  lemma CubeIndicesInRange()
    ensures AllBelow(CUBE_INDICES, |CUBE_POSITIONS|)
  {
    var quads := [QuadIndices(0), QuadIndices(4), QuadIndices(8), QuadIndices(12), QuadIndices(16), QuadIndices(20)];
    forall k | 0 <= k < 36
      ensures 0 <= CUBE_INDICES[k] < 24
    {
      assert CUBE_INDICES[k] == quads[k / 6][k % 6];
    }
  }

  /** MeshCreator::CreateCube: four vertices per face, two triangles per face;
      the Mesh(positions, indices) constructor generates the vertex normals. */
  function CreateCube(): (m: Mesh)
    ensures |m.positions| == 24 && |m.indices| == 36 && m.texCoords == []
    ensures AllBelow(m.indices, |m.positions|) && m.normals == VertexNormals(m.positions, m.indices)
    ensures |m.normals| == |m.positions|
  {
    CubeIndicesInRange();
    Mesh(CUBE_POSITIONS, [], VertexNormals(CUBE_POSITIONS, CUBE_INDICES), CUBE_INDICES)
  }

  /** Every vertex of the cube is a corner of [-1, 1]^3. */
  lemma CubeVerticesAreCorners()
    ensures forall k :: 0 <= k < |CreateCube().positions| ==> IsCubeCorner(CreateCube().positions[k])
  {
    assert CreateCube().positions == CUBE_POSITIONS;
    CubeConstantsAreCorners();
  }

  lemma CubeConstantsAreCorners()
    ensures forall k :: 0 <= k < |CUBE_POSITIONS| ==> IsCubeCorner(CUBE_POSITIONS[k])
  {
  }

  // ------------------------------------------------------------- pyramid

  const PYRAMID_POSITIONS: seq<Vec3> := [
    Vec3(-1.0, -1.0, 1.0), Vec3(-1.0, -1.0, -1.0), Vec3(1.0, -1.0, -1.0), Vec3(1.0, -1.0, 1.0),
    Vec3(0.0, 1.0, 0.0), Vec3(-1.0, -1.0, 1.0), Vec3(1.0, -1.0, 1.0),
    Vec3(0.0, 1.0, 0.0), Vec3(1.0, -1.0, -1.0), Vec3(-1.0, -1.0, -1.0),
    Vec3(0.0, 1.0, 0.0), Vec3(-1.0, -1.0, -1.0), Vec3(-1.0, -1.0, 1.0),
    Vec3(0.0, 1.0, 0.0), Vec3(1.0, -1.0, 1.0), Vec3(1.0, -1.0, -1.0)]

  const PYRAMID_TEX_COORDS: seq<Vec2> := [
    Vec2(0.0, 1.0), Vec2(0.0, 0.0), Vec2(1.0, 0.0), Vec2(1.0, 1.0),
    Vec2(0.5, 1.0), Vec2(0.0, 0.0), Vec2(1.0, 0.0),
    Vec2(0.5, 1.0), Vec2(0.0, 0.0), Vec2(1.0, 0.0),
    Vec2(0.5, 1.0), Vec2(0.0, 0.0), Vec2(1.0, 0.0),
    Vec2(0.5, 1.0), Vec2(0.0, 0.0), Vec2(1.0, 0.0)]

  const PYRAMID_INDICES: seq<int> := [0, 1, 2, 2, 3, 0, 4, 5, 6, 7, 8, 9, 10, 11, 12, 13, 14, 15]

  /** MeshCreator::CreatePyramid: a square base of two triangles and four
      sides, each with its own apex vertex (0, 1, 0); the vertex normals are
      generated by the constructor the texture-coordinate one delegates to. */
  function CreatePyramid(): (m: Mesh)
    ensures |m.positions| == 16 && |m.texCoords| == 16 && |m.indices| == 18
    ensures AllBelow(m.indices, |m.positions|) && m.normals == VertexNormals(m.positions, m.indices)
    ensures |m.normals| == |m.positions|
  {
    PyramidIndicesOnBaseOrApex();
    Mesh(PYRAMID_POSITIONS, PYRAMID_TEX_COORDS, VertexNormals(PYRAMID_POSITIONS, PYRAMID_INDICES), PYRAMID_INDICES)
  }

  /** Every vertex the pyramid draws lies on its base (y = -1) or is the apex (0, 1, 0). */
  lemma PyramidVerticesOnBaseOrApex()
    ensures var m := CreatePyramid();
      forall k :: 0 <= k < |m.indices| ==> m.positions[m.indices[k]].y == -1.0 || m.positions[m.indices[k]] == Vec3(0.0, 1.0, 0.0)
  {
    var m := CreatePyramid();
    assert m.positions == PYRAMID_POSITIONS && m.indices == PYRAMID_INDICES;
    PyramidIndicesOnBaseOrApex();
  }

  lemma PyramidIndicesOnBaseOrApex()
    ensures forall k :: 0 <= k < |PYRAMID_INDICES| ==>
      0 <= PYRAMID_INDICES[k] < |PYRAMID_POSITIONS| &&
      (PYRAMID_POSITIONS[PYRAMID_INDICES[k]].y == -1.0 || PYRAMID_POSITIONS[PYRAMID_INDICES[k]] == Vec3(0.0, 1.0, 0.0))
  {
    forall k | 0 <= k < |PYRAMID_INDICES|
      ensures 0 <= PYRAMID_INDICES[k] < |PYRAMID_POSITIONS|
      ensures PYRAMID_POSITIONS[PYRAMID_INDICES[k]].y == -1.0 || PYRAMID_POSITIONS[PYRAMID_INDICES[k]] == Vec3(0.0, 1.0, 0.0)
    {
      assert k < 6 || PYRAMID_INDICES[k] == k - 2;
    }
  }

  // --------------------------------------------------------------- plane

  /** MeshCreator::CreatePlane: a 2x2 quad on y = 0 whose texture repeats
      texturesSquared times along each side; the constructor generates the
      vertex normals. */
  function CreatePlane(texturesSquared: int): (m: Mesh)
    ensures |m.positions| == 4 && m.indices == [0, 1, 3, 3, 1, 2]
    ensures AllBelow(m.indices, |m.positions|) && m.normals == VertexNormals(m.positions, m.indices)
    ensures |m.normals| == |m.positions|
    ensures var n := texturesSquared as real;
      m.texCoords == [Vec2(0.0, 0.0), Vec2(n, 0.0), Vec2(n, n), Vec2(0.0, n)]
  {
    var n := texturesSquared as real;
    var positions := [Vec3(-1.0, 0.0, 1.0), Vec3(1.0, 0.0, 1.0), Vec3(1.0, 0.0, -1.0), Vec3(-1.0, 0.0, -1.0)];
    var indices := [0, 1, 3, 3, 1, 2];
    Mesh(positions, [Vec2(0.0, 0.0), Vec2(n, 0.0), Vec2(n, n), Vec2(0.0, n)], VertexNormals(positions, indices), indices)
  }

  /** The plane lies on y = 0. */
  lemma PlaneIsFlat(texturesSquared: int)
    ensures forall k :: 0 <= k < |CreatePlane(texturesSquared).positions| ==> CreatePlane(texturesSquared).positions[k].y == 0.0
  {
  }

  /** Both quad triangles share the diagonal 1-3 and together use all four corners. */
  lemma PlaneTrianglesCoverQuad(texturesSquared: int)
    ensures var i := CreatePlane(texturesSquared).indices;
      {i[0], i[1], i[2]} + {i[3], i[4], i[5]} == {0, 1, 2, 3} && {i[0], i[1], i[2]} * {i[3], i[4], i[5]} == {1, 3}
  {
    QuadTriangles(CreatePlane(texturesSquared).indices);
  }

  lemma QuadTriangles(i: seq<int>)
    requires i == [0, 1, 3, 3, 1, 2]
    ensures {i[0], i[1], i[2]} + {i[3], i[4], i[5]} == {0, 1, 2, 3} && {i[0], i[1], i[2]} * {i[3], i[4], i[5]} == {1, 3}
  {
  }

  // ------------------------------------------------- untexturable plane

  /** Vertices pushed before strip row z: the first row pushes a top and a
      bottom vertex per column, every later row only its bottom vertices. */
  function RowStart(size: int, z: nat): int {
    if z == 0 then 0 else (z + 1) * (size + 1)
  }

  /** Index of the bottom vertex of column x in strip row z. */
  function BottomIndex(size: int, z: nat, x: int): int {
    if z == 0 then 2 * x + 1 else RowStart(size, z) + x
  }

  /** Index of the top vertex of column x in strip row z: in rows after the
      first, it is the previous row's bottom vertex, shared instead of duplicated. */
  function TopIndex(size: int, z: nat, x: int): int {
    if z == 0 then 2 * x else BottomIndex(size, z - 1, x)
  }

  /** The vertices the first n columns of row z push, in order. */
  function RowPositions(z: nat, n: nat): seq<Vec3>
    decreases n
  {
    if n == 0 then []
    else
      var x := (n - 1) as real;
      RowPositions(z, n - 1) +
      (if z == 0 then [Vec3(x, 0.0, 0.0), Vec3(x, 0.0, 1.0)] else [Vec3(x, 0.0, (z + 1) as real)])
  }

  /** The indices the first n columns of row z push: top then bottom per column. */
  function RowIndices(size: int, z: nat, n: nat): seq<int>
    decreases n
  {
    if n == 0 then [] else RowIndices(size, z, n - 1) + [TopIndex(size, z, n - 1), BottomIndex(size, z, n - 1)]
  }

  /** Positions of the first `rows` strip rows of a grid of the given size. */
  function GridPositions(size: nat, rows: nat): seq<Vec3>
    decreases rows
  {
    if rows == 0 then [] else GridPositions(size, rows - 1) + RowPositions(rows - 1, size + 1)
  }

  /** Indices of the first `rows` strip rows, each ended by a restart marker. */
  function GridIndices(size: nat, rows: nat): seq<int>
    decreases rows
  {
    if rows == 0 then [] else GridIndices(size, rows - 1) + RowIndices(size, rows - 1, size + 1) + [RESTART_INDEX]
  }

  /** The mesh CreateUntexturablePlane builds for a size of at least 1. */
  function UntexturablePlane(size: nat): Mesh {
    Mesh(GridPositions(size, size), [], Repeat(NORMAL_UP, (size + 1) * (size + 1)), GridIndices(size, size))
  }

  lemma {:induction false} RowPositionsLength(z: nat, n: nat)
    ensures |RowPositions(z, n)| == if z == 0 then 2 * n else n
    decreases n
  {
    if n > 0 {
      RowPositionsLength(z, n - 1);
    }
  }

  lemma {:induction false} RowIndicesLength(size: int, z: nat, n: nat)
    ensures |RowIndices(size, z, n)| == 2 * n
    decreases n
  {
    if n > 0 {
      RowIndicesLength(size, z, n - 1);
    }
  }

  lemma RowStartStep(size: nat, z: nat)
    ensures RowStart(size, z + 1) == RowStart(size, z) + (if z == 0 then 2 * (size + 1) else size + 1)
  {
  }

  /** The grid of `rows` rows holds RowStart(rows) vertices. */
  lemma {:induction false} GridPositionsLength(size: nat, rows: nat)
    ensures |GridPositions(size, rows)| == RowStart(size, rows)
    decreases rows
  {
    if rows > 0 {
      GridPositionsLength(size, rows - 1);
      RowPositionsLength(rows - 1, size + 1);
      RowStartStep(size, rows - 1);
    }
  }

  /** Each row contributes two indices per column and one restart marker. */
  lemma {:induction false} GridIndicesLength(size: nat, rows: nat)
    ensures |GridIndices(size, rows)| == rows * (2 * (size + 1) + 1)
    decreases rows
  {
    if rows > 0 {
      GridIndicesLength(size, rows - 1);
      RowIndicesLength(size, rows - 1, size + 1);
      var k := 2 * (size + 1) + 1;
      assert rows * k == (rows - 1) * k + k;
    }
  }

  /** For a grid of size n, (n+1)^2 positions and 2(n+1)n + n indices, the
      counts the generator reserves and asserts. */
  lemma UntexturablePlaneCounts(size: nat)
    requires size >= 1
    ensures |UntexturablePlane(size).positions| == (size + 1) * (size + 1)
    ensures |UntexturablePlane(size).normals| == (size + 1) * (size + 1)
    ensures |UntexturablePlane(size).indices| == 2 * (size + 1) * size + size
    ensures forall k :: 0 <= k < |UntexturablePlane(size).normals| ==> UntexturablePlane(size).normals[k] == NORMAL_UP
  {
    GridPositionsLength(size, size);
    GridIndicesLength(size, size);
  }

  lemma {:induction false} RowPositionsAt(z: nat, n: nat, x: nat)
    requires x < n
    ensures z == 0 ==>
      (2 * x + 1 < |RowPositions(z, n)| && RowPositions(z, n)[2 * x] == Vec3(x as real, 0.0, 0.0) &&
       RowPositions(z, n)[2 * x + 1] == Vec3(x as real, 0.0, 1.0))
    ensures z > 0 ==> x < |RowPositions(z, n)| && RowPositions(z, n)[x] == Vec3(x as real, 0.0, (z + 1) as real)
    decreases n
  {
    RowPositionsLength(z, n);
    RowPositionsLength(z, n - 1);
    if x < n - 1 {
      RowPositionsAt(z, n - 1, x);
    }
  }

  lemma {:induction false} GridPositionsPrefix(size: nat, rows: nat, more: nat)
    ensures GridPositions(size, rows) <= GridPositions(size, rows + more)
    decreases more
  {
    if more > 0 {
      GridPositionsPrefix(size, rows, more - 1);
    }
  }

  /** Row z's vertices follow the rows before it. */
  lemma RowInGrid(size: nat, rows: nat, z: nat, k: nat)
    requires z < rows && k < |RowPositions(z, size + 1)|
    ensures RowStart(size, z) + k < |GridPositions(size, rows)|
    ensures GridPositions(size, rows)[RowStart(size, z) + k] == RowPositions(z, size + 1)[k]
  {
    GridPositionsPrefix(size, z + 1, rows - (z + 1));
    assert GridPositions(size, z + 1) == GridPositions(size, z) + RowPositions(z, size + 1);
    GridPositionsLength(size, z);
  }

  lemma BottomPosition(size: nat, rows: nat, z: nat, x: nat)
    requires z < rows && x <= size
    ensures BottomIndex(size, z, x) < |GridPositions(size, rows)|
    ensures GridPositions(size, rows)[BottomIndex(size, z, x)] == Vec3(x as real, 0.0, (z + 1) as real)
  {
    RowPositionsAt(z, size + 1, x);
    if z == 0 {
      RowInGrid(size, rows, z, 2 * x + 1);
    } else {
      RowInGrid(size, rows, z, x);
    }
  }

  /** Every index of the grid names the vertex it is meant to: the bottom
      vertex of column x in row z lies at (x, 0, z + 1), the top one at (x, 0, z). */
  lemma GridIndexPositions(size: nat, rows: nat, z: nat, x: nat)
    requires z < rows && x <= size
    ensures BottomIndex(size, z, x) < |GridPositions(size, rows)|
    ensures GridPositions(size, rows)[BottomIndex(size, z, x)] == Vec3(x as real, 0.0, (z + 1) as real)
    ensures 0 <= TopIndex(size, z, x) < BottomIndex(size, z, x)
    ensures GridPositions(size, rows)[TopIndex(size, z, x)] == Vec3(x as real, 0.0, z as real)
  {
    BottomPosition(size, rows, z, x);
    if z == 0 {
      RowPositionsAt(z, size + 1, x);
      RowInGrid(size, rows, z, 2 * x);
    } else {
      BottomPosition(size, rows, z - 1, x);
      assert BottomIndex(size, z - 1, x) < BottomIndex(size, z, x) by {
        RowStartStep(size, z - 1);
      }
    }
  }

  /** A point of the integer lattice on y = 0 with 0 <= x <= maxX and 0 <= z <= maxZ. */
  predicate OnLattice(v: Vec3, maxX: int, maxZ: int) {
    v.y == 0.0 && 0.0 <= v.x <= maxX as real && 0.0 <= v.z <= maxZ as real &&
    v.x == v.x.Floor as real && v.z == v.z.Floor as real
  }

  lemma {:induction false} RowPositionsOnLattice(z: nat, n: nat, maxZ: int)
    requires z + 1 <= maxZ
    ensures forall k :: 0 <= k < |RowPositions(z, n)| ==> OnLattice(RowPositions(z, n)[k], n - 1, maxZ)
    decreases n
  {
    if n > 0 {
      RowPositionsOnLattice(z, n - 1, maxZ);
    }
  }

  /** Every vertex of a grid of the given size lies at (x, 0, z) with
      integers x and z in [0, size]. */
  lemma {:induction false} GridPositionsOnLattice(size: nat, rows: nat)
    requires rows <= size
    ensures forall k :: 0 <= k < |GridPositions(size, rows)| ==> OnLattice(GridPositions(size, rows)[k], size, size)
    decreases rows
  {
    if rows > 0 {
      GridPositionsOnLattice(size, rows - 1);
      RowPositionsOnLattice(rows - 1, size + 1, size);
    }
  }

  /** The index of a vertex is below the number of vertices of the grid. */
  lemma {:induction false} RowStartMonotone(size: nat, z: nat, w: nat)
    requires z <= w
    ensures RowStart(size, z) <= RowStart(size, w)
    decreases w - z
  {
    if z < w {
      RowStartStep(size, z);
      RowStartMonotone(size, z + 1, w);
    }
  }

  lemma {:induction false} RowIndicesBelow(size: nat, z: nat, n: nat, bound: int)
    requires n <= size + 1 && RowStart(size, z + 1) <= bound
    ensures AllBelow(RowIndices(size, z, n), bound)
    decreases n
  {
    if n > 0 {
      RowIndicesBelow(size, z, n - 1, bound);
      RowStartStep(size, z);
      if z > 0 {
        RowStartStep(size, z - 1);
      }
    }
  }

  /** Apart from the restart markers, every index of a grid of size n names
      one of its (n+1)^2 vertices. */
  lemma {:induction false} GridIndicesBelow(size: nat, rows: nat)
    requires rows <= size
    ensures forall k :: 0 <= k < |GridIndices(size, rows)| ==>
      GridIndices(size, rows)[k] == RESTART_INDEX || 0 <= GridIndices(size, rows)[k] < (size + 1) * (size + 1)
    decreases rows
  {
    if rows > 0 {
      GridIndicesBelow(size, rows - 1);
      RowStartMonotone(size, rows, size);
      RowIndicesBelow(size, rows - 1, size + 1, (size + 1) * (size + 1));
    }
  }

  /** Number of restart markers in an index list. */
  function Restarts(indices: seq<int>): nat
    decreases |indices|
  {
    if |indices| == 0 then 0
    else Restarts(indices[..|indices| - 1]) + (if indices[|indices| - 1] == RESTART_INDEX then 1 else 0)
  }

  lemma {:induction false} RestartsAppend(a: seq<int>, b: seq<int>)
    ensures Restarts(a + b) == Restarts(a) + Restarts(b)
    decreases |b|
  {
    if |b| == 0 {
      assert a + b == a;
    } else {
      assert (a + b)[..|a + b| - 1] == a + b[..|b| - 1];
      RestartsAppend(a, b[..|b| - 1]);
    }
  }

  lemma {:induction false} NoRestarts(indices: seq<int>)
    requires AllBelow(indices, RESTART_INDEX)
    ensures Restarts(indices) == 0
    decreases |indices|
  {
    if |indices| > 0 {
      NoRestarts(indices[..|indices| - 1]);
    }
  }

  /** While the grid has at most 0xFFFF vertices (size up to 254), each of its
      rows ends in exactly one restart marker and no vertex index is mistaken
      for one. */
  lemma {:induction false} OneRestartPerRow(size: nat, rows: nat)
    requires rows <= size && (size + 1) * (size + 1) <= RESTART_INDEX
    ensures Restarts(GridIndices(size, rows)) == rows
    decreases rows
  {
    if rows > 0 {
      OneRestartPerRow(size, rows - 1);
      RowStartMonotone(size, rows, size);
      RowIndicesBelow(size, rows - 1, size + 1, RESTART_INDEX);
      NoRestarts(RowIndices(size, rows - 1, size + 1));
      var a, b := GridIndices(size, rows - 1), RowIndices(size, rows - 1, size + 1);
      RestartsAppend(a, b);
      RestartsAppend(a + b, [RESTART_INDEX]);
      assert Restarts([RESTART_INDEX]) == 1 by {
        assert [RESTART_INDEX][..0] == [];
      }
    }
  }

  /** From size 255 on the last vertex of the grid has index 0xFFFF, the
      restart marker itself, so the last strip is cut short at that vertex. */
  lemma RestartCollidesAt255()
    ensures BottomIndex(255, 254, 255) == RESTART_INDEX
    ensures BottomIndex(255, 254, 255) < |GridPositions(255, 255)|
  {
    GridIndexPositions(255, 255, 254, 255);
  }

  /** One pass of the inner loop of MeshCreator::CreateUntexturablePlane:
      the vertices and indices of strip row z, pushed column by column. */
  method PushStripRow(size: nat, z: nat, verticesPerRow: int, positions: seq<Vec3>, normals: seq<Vec3>,
                      indices: seq<int>, vertCount: int)
    returns (positions': seq<Vec3>, normals': seq<Vec3>, indices': seq<int>, vertCount': int)
    requires verticesPerRow == 2 * (size + 1)
    requires vertCount == |positions| == RowStart(size, z) && normals == Repeat(NORMAL_UP, |positions|)
    ensures positions' == positions + RowPositions(z, size + 1)
    ensures indices' == indices + RowIndices(size, z, size + 1)
    ensures normals' == Repeat(NORMAL_UP, |positions'|)
    ensures vertCount' == |positions'| == RowStart(size, z + 1)
  {
    positions', normals', indices', vertCount' := positions, normals, indices, vertCount;
    RowPositionsLength(z, 0);
    var x := 0;
    while x < size + 1
      invariant 0 <= x <= size + 1
      invariant positions' == positions + RowPositions(z, x)
      invariant indices' == indices + RowIndices(size, z, x)
      invariant normals' == Repeat(NORMAL_UP, |positions'|)
      invariant vertCount' == |positions'| == RowStart(size, z) + (if z == 0 then 2 * x else x)
    {
      positions', normals', indices', vertCount' :=
        PushStripColumn(size, z, x, verticesPerRow, positions, indices, positions', normals', indices', vertCount');
      x := x + 1;
    }
    RowPositionsLength(z, size + 1);
    RowStartStep(size, z);
  }

  /** One column of a strip row: the top index (a new vertex in the first row,
      the previous row's bottom vertex after it), then a new bottom vertex. */
  method PushStripColumn(size: nat, z: nat, x: nat, verticesPerRow: int, positions0: seq<Vec3>, indices0: seq<int>,
                         positions: seq<Vec3>, normals: seq<Vec3>, indices: seq<int>, vertCount: int)
    returns (positions': seq<Vec3>, normals': seq<Vec3>, indices': seq<int>, vertCount': int)
    requires verticesPerRow == 2 * (size + 1) && x < size + 1 && |positions0| == RowStart(size, z)
    requires positions == positions0 + RowPositions(z, x)
    requires indices == indices0 + RowIndices(size, z, x)
    requires normals == Repeat(NORMAL_UP, |positions|)
    requires vertCount == |positions| == RowStart(size, z) + (if z == 0 then 2 * x else x)
    ensures positions' == positions0 + RowPositions(z, x + 1)
    ensures indices' == indices0 + RowIndices(size, z, x + 1)
    ensures normals' == Repeat(NORMAL_UP, |positions'|)
    ensures vertCount' == |positions'| == RowStart(size, z) + (if z == 0 then 2 * (x + 1) else x + 1)
  {
    positions', normals', indices', vertCount' := positions, normals, indices, vertCount;
    RowPositionsLength(z, x);
    if z == 0 {
      positions' := positions' + [Vec3(x as real, 0.0, z as real)];
      normals' := normals' + [NORMAL_UP];
      indices' := indices' + [vertCount'];
      vertCount' := vertCount' + 1;
    } else if z == 1 {
      var difference := verticesPerRow - (x + 1);
      indices' := indices' + [vertCount' - difference];
    } else {
      var difference := verticesPerRow / 2;
      RowStartStep(size, z - 1);
      indices' := indices' + [vertCount' - difference];
    }
    positions' := positions' + [Vec3(x as real, 0.0, (z + 1) as real)];
    normals' := normals' + [NORMAL_UP];
    indices' := indices' + [vertCount'];
    vertCount' := vertCount' + 1;
  }

  /** The failure of CreateUntexturablePlane for a size below 1: the index
      count 2(size + 1)size + size is negative only for -1, where the
      reservation fails; for every other such size the final count
      assertion fails. */
  function UntexturablePlaneFailure(size: int): (reason: string)
    ensures size < 1 ==> (reason == "vector::reserve" <==> size == -1)
  {
    if 2 * (size + 1) * size + size < 0 then "vector::reserve" else "the grid does not have the reserved number of elements"
  }

  /** MeshCreator::CreateUntexturablePlane. */
  method CreateUntexturablePlane(size: int) returns (r: Result<Mesh>)
    ensures r.Ok? <==> size >= 1
    ensures r.Ok? ==> r.value == UntexturablePlane(size)
    ensures !r.Ok? ==> r == Fatal(UntexturablePlaneFailure(size))
  {
    var verticesPerRow := 2 * (size + 1);
    var numPositions := (verticesPerRow / 2) * (verticesPerRow / 2);
    var numNormals := numPositions;
    var numIndices := verticesPerRow * size + size;
    if numIndices < 0 {
      return Fatal(UntexturablePlaneFailure(size));
    }
    var positions: seq<Vec3> := [];
    var normals: seq<Vec3> := [];
    var indices: seq<int> := [];
    var vertCount := 0;
    var z := 0;
    while z < size
      invariant 0 <= z && (z <= size || z == 0)
      invariant positions == GridPositions(if size < 0 then 0 else size, z)
      invariant indices == GridIndices(if size < 0 then 0 else size, z)
      invariant normals == Repeat(NORMAL_UP, |positions|)
      invariant vertCount == |positions| == RowStart(size, z)
    {
      positions, normals, indices, vertCount := PushStripRow(size, z, verticesPerRow, positions, normals, indices, vertCount);
      indices := indices + [RESTART_INDEX];
      z := z + 1;
    }
    if size >= 1 {
      GridPositionsLength(size, size);
      GridIndicesLength(size, size);
    }
    if |positions| != numPositions || |normals| != numNormals || |indices| != numIndices {
      return Fatal(UntexturablePlaneFailure(size));
    }
    return Ok(Mesh(positions, [], normals, indices));
  }
}
