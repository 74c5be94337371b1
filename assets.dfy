/** Values standing for the GPU resources the managers own. Uploading them
    is not modelled; they are identified by the data or files they came from. */
module Assets {
  import opened Glm

  /** Vertex attributes and index buffer handed to a Mesh (Mesh.h); an
      attribute that a Mesh constructor does not take is empty. */
  datatype Mesh = Mesh(positions: seq<Vec3>, texCoords: seq<Vec2>, normals: seq<Vec3>, indices: seq<int>)

  /** A texture, identified by the image file it was loaded from. */
  datatype Texture = Texture(path: string)

  /** A linked shader program, identified by its source files. */
  datatype ShaderProgram = ShaderProgram(vertexFile: string, fragmentFile: string)
}
