/** The engine's ground plane (Plane.cpp): an untexturable grid whose
    stored position shifts it so that its centre sits on the given point. */
module Planes {
  import opened Wrappers
  import opened Glm
  import opened Assets
  import opened MeshCreator

  /** The primitive-restart index Plane::Render enables before drawing the strips. */
  const PLANE_RESTART_INDEX: int := 0xFFFF

  datatype Plane = Plane(mesh: Mesh, position: Vec3, size: int)

  /** Plane::Plane(size, position). Building the grid fails for a size below
      1, for the reason CreateUntexturablePlane gives. */
  function MakePlane(size: int, position: Vec3): (r: Result<Plane>)
    ensures r.Ok? <==> size >= 1
    ensures !r.Ok? ==> r == Fatal(UntexturablePlaneFailure(size))
    ensures r.Ok? ==> r.value.size == size && r.value.mesh == UntexturablePlane(size)
    ensures r.Ok? ==> r.value.position.y == position.y
  {
    if size < 1 then Fatal(UntexturablePlaneFailure(size))
    else
      var moveAmount := -(size as real) / 2.0;
      Ok(Plane(UntexturablePlane(size), Vec3(position.x + moveAmount, position.y, position.z + moveAmount), size))
  }

  /** Where a vertex of the plane's mesh ends up once the plane's position is applied. */
  function Placed(p: Plane, v: Vec3): Vec3 {
    Add(p.position, v)
  }

  /** The grid spans [0, size] on x and z; placed, its two extreme corners are
      symmetric about the given point, so the grid is centred on it. */
  lemma PlaneIsCentred(size: int, position: Vec3)
    requires size >= 1
    ensures var p := MakePlane(size, position).value;
      var positions := p.mesh.positions;
      var last := BottomIndex(size, size - 1, size);
      0 < last < |positions| &&
      positions[0] == Vec3(0.0, 0.0, 0.0) &&
      positions[last] == Vec3(size as real, 0.0, size as real) &&
      (Placed(p, positions[0]).x + Placed(p, positions[last]).x) / 2.0 == position.x &&
      (Placed(p, positions[0]).z + Placed(p, positions[last]).z) / 2.0 == position.z &&
      Placed(p, positions[0]).y == position.y && Placed(p, positions[last]).y == position.y
  {
    GridIndexPositions(size, size, 0, 0);
    GridIndexPositions(size, size, size - 1, size);
  }

  /** The index Plane::Render treats as a strip break is the one the grid
      generator ends each row with: while the grid's vertex indices stay
      below it, the plane is drawn as exactly `size` strips. */
  lemma PlaneStripsBreakAtRestartIndex(size: int, position: Vec3)
    requires size >= 1 && (size + 1) * (size + 1) <= PLANE_RESTART_INDEX
    ensures PLANE_RESTART_INDEX == RESTART_INDEX
    ensures Restarts(MakePlane(size, position).value.mesh.indices) == size
  {
    OneRestartPerRow(size, size);
  }
}
