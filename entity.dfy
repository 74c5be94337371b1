/** A renderable object (Entity.h, Entity.cpp): a mesh, its own material, the
    shader it is drawn with, and a position, rotation and scale. */
module Entities {
  import opened Wrappers
  import opened Glm
  import opened Assets
  import opened Gpu
  import opened Materials

  const X_AXIS: Vec3 := Vec3(1.0, 0.0, 0.0)
  const Y_AXIS: Vec3 := Vec3(0.0, 1.0, 0.0)
  const Z_AXIS: Vec3 := Vec3(0.0, 0.0, 1.0)

  /** R = RX * RY * RZ, each a rotation by that many degrees about its own axis. */
  function RotationMatrix(rotation: Vec3): Mat4 {
    Mul(Mul(Rotate(Identity, Radians(rotation.x), X_AXIS), Rotate(Identity, Radians(rotation.y), Y_AXIS)),
        Rotate(Identity, Radians(rotation.z), Z_AXIS))
  }

  /** Entity::CalculateModelMatrix: scale first, then rotate, then translate. */
  function ModelMatrix(position: Vec3, rotation: Vec3, scale: Vec3): Mat4 {
    Mul(Mul(Translate(Identity, position), RotationMatrix(rotation)), ScaleBy(Identity, scale))
  }

  /** What the renderer reads of an entity. */
  datatype EntityState = EntityState(mesh: Mesh, material: MaterialState, shader: Option<string>, model: Mat4)

  class Entity {
    const mesh: Mesh
    const material: Material
    var shader: Option<string>
    var position: Vec3
    /** degrees about x, y and z, not a direction */
    var rotation: Vec3
    var scale: Vec3

    /** The engine supports uniform scaling only. */
    predicate UniformScale()
      reads this
    {
      scale.x == scale.y == scale.z
    }

    /** Entity(mesh): at the origin, unrotated, unit scale, no shader, and a
        default material of its own. */
    constructor (mesh: Mesh)
      ensures this.mesh == mesh && shader == None
      ensures position == ZERO && rotation == ZERO && scale == ONES && UniformScale()
      ensures fresh(material) && material.diffuseMap == None && !material.hasTextureSet
      ensures material.ambient == ONES && material.diffuse == ONES && material.specular == ONES
      ensures material.shininess == DEFAULT_SHININESS
    {
      this.mesh := mesh;
      shader := None;
      position := ZERO;
      rotation := ZERO;
      scale := ONES;
      material := new Material();
    }

    function GetRotation(): Vec3
      reads this
    {
      rotation
    }

    method SetPosition(p: Vec3)
      modifies this
      ensures position == p
      ensures rotation == old(rotation) && scale == old(scale) && shader == old(shader)
    {
      position := p;
    }

    method SetRotation(angleX: real, angleY: real, angleZ: real)
      modifies this
      ensures GetRotation() == Vec3(angleX, angleY, angleZ)
      ensures position == old(position) && scale == old(scale) && shader == old(shader)
    {
      rotation := Vec3(angleX, angleY, angleZ);
    }

    /** Entity::SetScale: one factor for all three axes. */
    method SetScale(factor: real)
      modifies this
      ensures scale == Vec3(factor, factor, factor) && UniformScale()
      ensures position == old(position) && rotation == old(rotation) && shader == old(shader)
    {
      scale := Vec3(factor, factor, factor);
    }

    method SetShader(s: Option<string>)
      modifies this
      ensures shader == s
      ensures position == old(position) && rotation == old(rotation) && scale == old(scale)
    {
      shader := s;
    }

    /** Entity::GetMaterial: the entity's own material object. */
    function GetMaterial(): Material {
      material
    }

    function CalculateModelMatrix(): Mat4
      reads this
    {
      ModelMatrix(position, rotation, scale)
    }

    /** Entity::Bind: the material's binding, nothing else. */
    function Bind(s: string): (r: seq<Cmd>)
      requires material.hasTextureSet && Bindable(material.State())
      reads this, material
      ensures r == Materials.Bind(material.State(), s)
    {
      Materials.Bind(material.State(), s)
    }

    /** Entity::Render: draws the mesh. */
    function Render(): Cmd {
      DrawMesh(mesh)
    }

    function State(): EntityState
      requires material.hasTextureSet
      reads this, material
    {
      EntityState(mesh, material.State(), shader, CalculateModelMatrix())
    }
  }
}
