/** Per-vertex normals for meshes built without them (MeshUtil.cpp). Faces
    are consecutive index triples; a vertex receives the normal of the first
    face corner at which it is met while the vertices are met in order. */
module MeshUtil {
  import opened Glm

  const VERTICES_PER_FACE: nat := 3

  /** Every index names one of n vertices. */
  predicate AllBelow(indices: seq<int>, n: int) {
    forall k :: 0 <= k < |indices| ==> 0 <= indices[k] < n
  }

  /** n copies of v. */
  function Repeat(v: Vec3, n: nat): (r: seq<Vec3>)
    ensures |r| == n && forall k :: 0 <= k < n ==> r[k] == v
  {
    seq(n, _ => v)
  }

  /** The two other corners of a face, as ComputeNormal picks them. */
  function Neighbours(corner: nat): (r: (nat, nat))
    requires corner < VERTICES_PER_FACE
    ensures r.0 < VERTICES_PER_FACE && r.1 < VERTICES_PER_FACE
    ensures r.0 != corner && r.1 != corner && r.0 != r.1
    ensures r.0 == (corner + 1) % VERTICES_PER_FACE
  {
    ((corner + 1) % VERTICES_PER_FACE, (corner + 2) % VERTICES_PER_FACE)
  }

  predicate IsFace(face: seq<int>, positions: seq<Vec3>) {
    |face| == VERTICES_PER_FACE && AllBelow(face, |positions|)
  }

  /** MeshUtil::ComputeNormal: the normalised cross product of the edges from
      the vertex to the next and to the previous corner of its face. */
  function ComputeNormal(corner: nat, vertex: int, positions: seq<Vec3>, face: seq<int>): Vec3
    requires corner < VERTICES_PER_FACE && IsFace(face, positions) && 0 <= vertex < |positions|
  {
    var (next, prev) := Neighbours(corner);
    var vertexPos := positions[vertex];
    Normalize(Cross(Sub(positions[face[next]], vertexPos), Sub(positions[face[prev]], vertexPos)))
  }

  /** The normal of the triangle a, b, c, wound counter-clockwise. */
  function FaceNormal(a: Vec3, b: Vec3, c: Vec3): Vec3 {
    Normalize(Cross(Sub(b, a), Sub(c, a)))
  }

  /** The edge cross product is the same from every corner of a triangle. */
  lemma CrossIsCyclic(a: Vec3, b: Vec3, c: Vec3)
    ensures Cross(Sub(c, b), Sub(a, b)) == Cross(Sub(b, a), Sub(c, a))
    ensures Cross(Sub(a, c), Sub(b, c)) == Cross(Sub(b, a), Sub(c, a))
  {
    CrossOfEdges(a, b, c);
    CrossOfEdges(b, c, a);
    CrossOfEdges(c, a, b);
  }

  /** (b - a) x (c - a) == a x b + b x c + c x a, which is symmetric under
      rotating the corners. */
  lemma CrossOfEdges(a: Vec3, b: Vec3, c: Vec3)
    ensures Cross(Sub(b, a), Sub(c, a)) == Add(Add(Cross(a, b), Cross(b, c)), Cross(c, a))
  {
    CrossOfEdgesX(a, b, c);
    CrossOfEdgesY(a, b, c);
    CrossOfEdgesZ(a, b, c);
  }

  lemma CrossOfEdgesX(a: Vec3, b: Vec3, c: Vec3)
    ensures Cross(Sub(b, a), Sub(c, a)).x == Add(Add(Cross(a, b), Cross(b, c)), Cross(c, a)).x
  {
    TwoByTwoOfEdges(a.y, a.z, b.y, b.z, c.y, c.z);
  }

  lemma CrossOfEdgesY(a: Vec3, b: Vec3, c: Vec3)
    ensures Cross(Sub(b, a), Sub(c, a)).y == Add(Add(Cross(a, b), Cross(b, c)), Cross(c, a)).y
  {
    TwoByTwoOfEdges(a.z, a.x, b.z, b.x, c.z, c.x);
  }

  lemma CrossOfEdgesZ(a: Vec3, b: Vec3, c: Vec3)
    ensures Cross(Sub(b, a), Sub(c, a)).z == Add(Add(Cross(a, b), Cross(b, c)), Cross(c, a)).z
  {
    TwoByTwoOfEdges(a.x, a.y, b.x, b.y, c.x, c.y);
  }

  /** One coordinate of CrossOfEdges: a 2x2 determinant of edge vectors. */
  lemma TwoByTwoOfEdges(a1: real, a2: real, b1: real, b2: real, c1: real, c2: real)
    ensures (b1 - a1) * (c2 - a2) - (b2 - a2) * (c1 - a1) ==
            (a1 * b2 - a2 * b1) + (b1 * c2 - b2 * c1) + (c1 * a2 - c2 * a1)
  {
  }

  /** Whichever corner ComputeNormal starts from, it yields the face's normal. */
  lemma CornersShareFaceNormal(corner: nat, positions: seq<Vec3>, face: seq<int>)
    requires corner < VERTICES_PER_FACE && IsFace(face, positions)
    ensures ComputeNormal(corner, face[corner], positions, face) ==
            FaceNormal(positions[face[0]], positions[face[1]], positions[face[2]])
  {
    CrossIsCyclic(positions[face[0]], positions[face[1]], positions[face[2]]);
  }

  /** MeshUtil::GetFaceIndices: the three indices of the face starting at `first`. */
  method GetFaceIndices(indices: seq<int>, first: nat) returns (face: seq<int>)
    requires first + VERTICES_PER_FACE <= |indices|
    ensures |face| == VERTICES_PER_FACE
    ensures forall i :: 0 <= i < VERTICES_PER_FACE ==> face[i] == indices[first + i]
  {
    face := [];
    var i := 0;
    while i < VERTICES_PER_FACE
      invariant 0 <= i <= VERTICES_PER_FACE && |face| == i
      invariant forall k :: 0 <= k < i ==> face[k] == indices[first + k]
    {
      face := face + [indices[first + i]];
      i := i + 1;
    }
  }

  /** The normals written so far and the number of vertices already given one. */
  datatype Progress = Progress(normals: seq<Vec3>, count: nat)

  /** One corner of GenerateVertexNormals: the vertex gets a normal only when it
      is the next one in order; any other corner is skipped. */
  function VisitCorner(st: Progress, positions: seq<Vec3>, face: seq<int>, corner: nat): (r: Progress)
    requires corner < VERTICES_PER_FACE && IsFace(face, positions) && |st.normals| == |positions|
    ensures |r.normals| == |positions|
  {
    if face[corner] == st.count then
      Progress(st.normals[st.count := ComputeNormal(corner, face[corner], positions, face)], st.count + 1)
    else st
  }

  /** The first n corners of a face, visited in order. */
  function VisitCorners(st: Progress, positions: seq<Vec3>, face: seq<int>, n: nat): (r: Progress)
    requires n <= VERTICES_PER_FACE && IsFace(face, positions) && |st.normals| == |positions|
    ensures |r.normals| == |positions|
    decreases n
  {
    if n == 0 then st else VisitCorner(VisitCorners(st, positions, face, n - 1), positions, face, n - 1)
  }

  function Face(indices: seq<int>, f: nat): seq<int>
    requires VERTICES_PER_FACE * (f + 1) <= |indices|
  {
    indices[VERTICES_PER_FACE * f..VERTICES_PER_FACE * (f + 1)]
  }

  lemma FaceIsFace(indices: seq<int>, positions: seq<Vec3>, f: nat)
    requires VERTICES_PER_FACE * (f + 1) <= |indices| && AllBelow(indices, |positions|)
    ensures IsFace(Face(indices, f), positions)
    ensures forall i :: 0 <= i < VERTICES_PER_FACE ==> Face(indices, f)[i] == indices[VERTICES_PER_FACE * f + i]
  {
  }

  /** Progress after the first `faces` faces, starting from all-zero normals. */
  function VisitFaces(positions: seq<Vec3>, indices: seq<int>, faces: nat): (r: Progress)
    requires VERTICES_PER_FACE * faces <= |indices| && AllBelow(indices, |positions|)
    ensures |r.normals| == |positions|
    decreases faces
  {
    if faces == 0 then Progress(Repeat(ZERO, |positions|), 0)
    else
      FaceIsFace(indices, positions, faces - 1);
      VisitCorners(VisitFaces(positions, indices, faces - 1), positions, Face(indices, faces - 1), VERTICES_PER_FACE)
  }

  /** The normals GenerateVertexNormals returns. */
  function VertexNormals(positions: seq<Vec3>, indices: seq<int>): (r: seq<Vec3>)
    requires |indices| % VERTICES_PER_FACE == 0 && AllBelow(indices, |positions|)
    ensures |r| == |positions|
  {
    VisitFaces(positions, indices, |indices| / VERTICES_PER_FACE).normals
  }

  /** MeshUtil::GenerateVertexNormals. The indices come in whole faces and name
      existing vertices; otherwise the source reads past one of its vectors. */
  method GenerateVertexNormals(positions: seq<Vec3>, indices: seq<int>) returns (r: seq<Vec3>)
    requires |indices| % VERTICES_PER_FACE == 0 && AllBelow(indices, |positions|)
    ensures |r| == |positions|
    ensures r == VertexNormals(positions, indices)
  {
    var normals := new Vec3[|positions|](_ => ZERO);
    var curNormalsIndex := 0;
    var curIndicesIndex := 0;
    var count := 0;
    ghost var f := 0;
    while curIndicesIndex < |indices|
      invariant 0 <= curIndicesIndex <= |indices| && curIndicesIndex == VERTICES_PER_FACE * f
      invariant curNormalsIndex == count
      invariant Progress(normals[..], count) == VisitFaces(positions, indices, f)
    {
      var faceIndices := GetFaceIndices(indices, curIndicesIndex);
      assert faceIndices == Face(indices, f);
      FaceIsFace(indices, positions, f);
      ghost var before := VisitFaces(positions, indices, f);
      curNormalsIndex, count := VisitFaceCorners(normals, curNormalsIndex, count, positions, faceIndices);
      assert VisitFaces(positions, indices, f + 1) == VisitCorners(before, positions, faceIndices, VERTICES_PER_FACE);
      curIndicesIndex := curIndicesIndex + VERTICES_PER_FACE;
      f := f + 1;
    }
    assert f == |indices| / VERTICES_PER_FACE;
    r := normals[..];
  }

  /** The inner loop of GenerateVertexNormals: the three corners of one face. */
  method VisitFaceCorners(normals: array<Vec3>, curNormalsIndex: int, count: nat, positions: seq<Vec3>, faceIndices: seq<int>)
    returns (curNormalsIndex': int, count': nat)
    requires IsFace(faceIndices, positions) && normals.Length == |positions| && curNormalsIndex == count
    modifies normals
    ensures curNormalsIndex' == count'
    ensures Progress(normals[..], count') ==
      VisitCorners(Progress(old(normals[..]), count), positions, faceIndices, VERTICES_PER_FACE)
  {
    ghost var before := Progress(normals[..], count);
    curNormalsIndex', count' := curNormalsIndex, count;
    var i := 0;
    while i < VERTICES_PER_FACE
      invariant 0 <= i <= VERTICES_PER_FACE
      invariant curNormalsIndex' == count'
      invariant Progress(normals[..], count') == VisitCorners(before, positions, faceIndices, i)
    {
      var curVertex := faceIndices[i];
      ghost var st := VisitCorners(before, positions, faceIndices, i);
      assert VisitCorners(before, positions, faceIndices, i + 1) == VisitCorner(st, positions, faceIndices, i);
      if count' == curVertex {
        normals[curNormalsIndex'] := ComputeNormal(i, curVertex, positions, faceIndices);
        count' := count' + 1;
        curNormalsIndex' := curNormalsIndex' + 1;
      }
      i := i + 1;
    }
  }

  /** Vertices are given normals strictly in order, so only the first `count`
      slots are written and the rest keep the zero vector. */
  lemma {:induction false} VisitFacesWritesPrefix(positions: seq<Vec3>, indices: seq<int>, faces: nat)
    requires VERTICES_PER_FACE * faces <= |indices| && AllBelow(indices, |positions|)
    ensures VisitFaces(positions, indices, faces).count <= |positions|
    ensures forall k :: VisitFaces(positions, indices, faces).count <= k < |positions| ==>
      VisitFaces(positions, indices, faces).normals[k] == ZERO
    decreases faces
  {
    if faces > 0 {
      VisitFacesWritesPrefix(positions, indices, faces - 1);
      FaceIsFace(indices, positions, faces - 1);
      var face := Face(indices, faces - 1);
      var st := VisitFaces(positions, indices, faces - 1);
      VisitCornersWritesPrefix(st, positions, face, VERTICES_PER_FACE);
    }
  }

  lemma {:induction false} VisitCornersWritesPrefix(st: Progress, positions: seq<Vec3>, face: seq<int>, n: nat)
    requires n <= VERTICES_PER_FACE && IsFace(face, positions) && |st.normals| == |positions|
    requires st.count <= |positions|
    requires forall k :: st.count <= k < |positions| ==> st.normals[k] == ZERO
    ensures VisitCorners(st, positions, face, n).count <= |positions|
    ensures forall k :: VisitCorners(st, positions, face, n).count <= k < |positions| ==>
      VisitCorners(st, positions, face, n).normals[k] == ZERO
    decreases n
  {
    if n > 0 {
      VisitCornersWritesPrefix(st, positions, face, n - 1);
    }
  }

  /** The normals of a mesh whose faces use fresh vertices 0, 1, 2, ... in
      order, as far as the first m vertices: each has its own face's normal. */
  function SequentialNormals(positions: seq<Vec3>, m: nat): (r: seq<Vec3>)
    requires |positions| % VERTICES_PER_FACE == 0 && m <= |positions|
    ensures |r| == |positions|
  {
    seq(|positions|, k requires 0 <= k < |positions| =>
      if k < m then
        var f := k / VERTICES_PER_FACE;
        FaceNormal(positions[3 * f], positions[3 * f + 1], positions[3 * f + 2])
      else ZERO)
  }

  /** The indices 0, 1, ..., n - 1. */
  function Iota(n: nat): (r: seq<int>)
    ensures |r| == n && forall k :: 0 <= k < n ==> r[k] == k
  {
    seq(n, k => k)
  }

  lemma IotaAllBelow(n: nat)
    ensures AllBelow(Iota(n), n)
  {
  }

  /** With the index list 0, 1, ..., n - 1 every vertex is met first at its
      own corner, so after f faces the first 3f vertices hold their face's normal. */
  lemma {:induction false} SequentialFaces(positions: seq<Vec3>, faces: nat)
    requires |positions| % VERTICES_PER_FACE == 0 && VERTICES_PER_FACE * faces <= |positions|
    ensures VisitFaces(positions, Iota(|positions|), faces) ==
            Progress(SequentialNormals(positions, VERTICES_PER_FACE * faces), VERTICES_PER_FACE * faces)
    decreases faces
  {
    if faces == 0 {
      SequentialNormalsStart(positions);
    } else {
      SequentialFaces(positions, faces - 1);
      SequentialFaceStep(positions, faces - 1);
    }
  }

  lemma SequentialNormalsStart(positions: seq<Vec3>)
    requires |positions| % VERTICES_PER_FACE == 0
    ensures SequentialNormals(positions, 0) == Repeat(ZERO, |positions|)
  {
  }

  /** Visiting face f of the sequential index list gives its three fresh
      vertices the face normal. */
  lemma SequentialFaceStep(positions: seq<Vec3>, f: nat)
    requires |positions| % VERTICES_PER_FACE == 0 && VERTICES_PER_FACE * (f + 1) <= |positions|
    requires VisitFaces(positions, Iota(|positions|), f) == Progress(SequentialNormals(positions, 3 * f), 3 * f)
    ensures VisitFaces(positions, Iota(|positions|), f + 1) == Progress(SequentialNormals(positions, 3 * f + 3), 3 * f + 3)
  {
    var indices := Iota(|positions|);
    IotaAllBelow(|positions|);
    FaceIsFace(indices, positions, f);
    var face := Face(indices, f);
    assert face == [3 * f, 3 * f + 1, 3 * f + 2];
    var st0 := Progress(SequentialNormals(positions, 3 * f), 3 * f);
    var fn := FaceNormal(positions[3 * f], positions[3 * f + 1], positions[3 * f + 2]);
    CornersShareFaceNormal(0, positions, face);
    CornersShareFaceNormal(1, positions, face);
    CornersShareFaceNormal(2, positions, face);
    assert VisitCorners(st0, positions, face, 1) == Progress(st0.normals[3 * f := fn], 3 * f + 1);
    assert VisitCorners(st0, positions, face, 2) == Progress(st0.normals[3 * f := fn][3 * f + 1 := fn], 3 * f + 2);
    SequentialNormalsExtend(positions, f);
  }

  /** Writing the normal of face f into its three slots extends the sequential
      normals by one face. */
  lemma SequentialNormalsExtend(positions: seq<Vec3>, f: nat)
    requires |positions| % VERTICES_PER_FACE == 0 && VERTICES_PER_FACE * (f + 1) <= |positions|
    ensures var fn := FaceNormal(positions[3 * f], positions[3 * f + 1], positions[3 * f + 2]);
      SequentialNormals(positions, 3 * f)[3 * f := fn][3 * f + 1 := fn][3 * f + 2 := fn] == SequentialNormals(positions, 3 * f + 3)
  {
    var fn := FaceNormal(positions[3 * f], positions[3 * f + 1], positions[3 * f + 2]);
    var after := SequentialNormals(positions, 3 * f)[3 * f := fn][3 * f + 1 := fn][3 * f + 2 := fn];
    forall k | 0 <= k < |positions|
      ensures after[k] == SequentialNormals(positions, 3 * f + 3)[k]
    {
      if 3 * f <= k < 3 * f + 3 {
        assert k / 3 == f;
      }
    }
  }

  /** For a mesh of separate triangles indexed 0, 1, ..., n - 1, every vertex
      receives the normal of the face it belongs to. */
  lemma EveryVertexGetsItsFaceNormal(positions: seq<Vec3>)
    requires |positions| % VERTICES_PER_FACE == 0
    ensures var normals := VertexNormals(positions, Iota(|positions|));
      forall k :: 0 <= k < |positions| ==>
        var f := k / VERTICES_PER_FACE;
        normals[k] == FaceNormal(positions[3 * f], positions[3 * f + 1], positions[3 * f + 2])
  {
    SequentialFaces(positions, |positions| / VERTICES_PER_FACE);
  }
}
