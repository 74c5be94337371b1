/** Debug line geometry for vertex normals (Debug.cpp): each normal becomes
    a line from the vertex to the vertex plus the normal. */
module DebugLines {
  import opened Glm
  import opened Gpu

  /** p0, e0, p1, e1, ...: the layout OpenGL needs to draw one line per pair. */
  function Interleave(positions: seq<Vec3>, endpoints: seq<Vec3>): (r: seq<Vec3>)
    requires |positions| == |endpoints|
    ensures |r| == 2 * |positions|
    decreases |positions|
  {
    if |positions| == 0 then []
    else Interleave(positions[..|positions| - 1], endpoints[..|endpoints| - 1]) + [positions[|positions| - 1], endpoints[|endpoints| - 1]]
  }

  /** Every other element, starting at `start` (0 for the first of each pair, 1 for the second). */
  function EveryOther(s: seq<Vec3>, start: nat): (r: seq<Vec3>)
    requires start < 2 && |s| % 2 == 0
    ensures |r| == |s| / 2
  {
    seq(|s| / 2, i requires 0 <= i < |s| / 2 => s[2 * i + start])
  }

  lemma {:induction false} InterleaveAt(positions: seq<Vec3>, endpoints: seq<Vec3>, i: nat)
    requires |positions| == |endpoints| && i < |positions|
    ensures Interleave(positions, endpoints)[2 * i] == positions[i]
    ensures Interleave(positions, endpoints)[2 * i + 1] == endpoints[i]
    decreases |positions|
  {
    var n := |positions|;
    if i < n - 1 {
      InterleaveAt(positions[..n - 1], endpoints[..n - 1], i);
    }
  }

  /** Splitting the interleaved list into its even and odd elements gives back
      the vertices and the endpoints. */
  lemma InterleaveRoundTrip(positions: seq<Vec3>, endpoints: seq<Vec3>)
    requires |positions| == |endpoints|
    ensures EveryOther(Interleave(positions, endpoints), 0) == positions
    ensures EveryOther(Interleave(positions, endpoints), 1) == endpoints
  {
    forall i | 0 <= i < |positions| {
      InterleaveAt(positions, endpoints, i);
    }
  }

  /** Debug::Mesh::GenerateNormalLines. Half of the total size is the number of
      pairs; every pair read must exist in both lists. When the total is odd the
      last element stays the zero vector. */
  method GenerateNormalLines(positions: seq<Vec3>, endpoints: seq<Vec3>) returns (r: seq<Vec3>)
    requires (|positions| + |endpoints|) / 2 <= |positions| && (|positions| + |endpoints|) / 2 <= |endpoints|
    ensures |r| == |positions| + |endpoints|
    ensures forall i :: 0 <= i < |r| / 2 ==> r[2 * i] == positions[i] && r[2 * i + 1] == endpoints[i]
    ensures |r| % 2 == 1 ==> r[|r| - 1] == ZERO
  {
    var combinedSize := |positions| + |endpoints|;
    var combined := new Vec3[combinedSize](_ => ZERO);
    var originalSize := combinedSize / 2;
    var j := 0;
    var i := 0;
    while i < originalSize
      invariant 0 <= i <= originalSize && j == 2 * i
      invariant forall k :: 0 <= k < i ==> combined[2 * k] == positions[k] && combined[2 * k + 1] == endpoints[k]
      invariant forall k :: 2 * i <= k < combinedSize ==> combined[k] == ZERO
    {
      combined[j] := positions[i];
      combined[j + 1] := endpoints[i];
      j := j + 2;
      i := i + 1;
    }
    r := combined[..];
  }

  /** For lists of equal length the result is exactly the interleaving. */
  lemma NormalLinesAreInterleaved(positions: seq<Vec3>, endpoints: seq<Vec3>, r: seq<Vec3>)
    requires |positions| == |endpoints| && |r| == |positions| + |endpoints|
    requires forall i :: 0 <= i < |r| / 2 ==> r[2 * i] == positions[i] && r[2 * i + 1] == endpoints[i]
    ensures r == Interleave(positions, endpoints)
  {
    forall k | 0 <= k < |r|
      ensures r[k] == Interleave(positions, endpoints)[k]
    {
      InterleaveAt(positions, endpoints, k / 2);
      assert k == 2 * (k / 2) || k == 2 * (k / 2) + 1;
    }
  }

  /** The tip of each normal line: the vertex moved by its normal. */
  function Endpoints(positions: seq<Vec3>, normals: seq<Vec3>): (r: seq<Vec3>)
    requires |positions| == |normals|
    ensures |r| == |normals|
  {
    seq(|normals|, i requires 0 <= i < |normals| => Add(positions[i], normals[i]))
  }

  /** Debug::Mesh::CreateNormals: `ok` is false when the sizes differ (the
      assertion fails); otherwise the line list is uploaded, in which line i
      runs from vertex i along its normal. Two empty lists would upload from
      the first element of an empty vector. */
  method CreateNormals(positions: seq<Vec3>, normals: seq<Vec3>) returns (ok: bool, cmds: seq<Cmd>)
    requires |positions| == |normals| ==> |normals| > 0
    ensures ok <==> |positions| == |normals|
    ensures !ok ==> cmds == []
    ensures ok ==> cmds == [UploadLines(Interleave(positions, Endpoints(positions, normals)))]
    ensures ok ==> forall i :: 0 <= i < |normals| ==>
      cmds[0].vertices[2 * i] == positions[i] && cmds[0].vertices[2 * i + 1] == Add(positions[i], normals[i])
  {
    if |positions| != |normals| {
      return false, [];
    }
    var endpoint := new Vec3[|normals|](_ => ZERO);
    var i := 0;
    while i < endpoint.Length
      invariant 0 <= i <= endpoint.Length
      invariant forall k :: 0 <= k < i ==> endpoint[k] == Add(positions[k], normals[k])
    {
      endpoint[i] := Add(positions[i], normals[i]);
      i := i + 1;
    }
    assert endpoint[..] == Endpoints(positions, normals);
    var combined := GenerateNormalLines(positions, endpoint[..]);
    NormalLinesAreInterleaved(positions, endpoint[..], combined);
    forall k | 0 <= k < |normals| {
      InterleaveAt(positions, endpoint[..], k);
    }
    return true, [UploadLines(combined)];
  }
}
