/** Surface material of an entity (Material.h, Material.cpp): three colour
    terms, a shininess exponent and an optional diffuse texture. */
module Materials {
  import opened Wrappers
  import opened Glm
  import opened Assets
  import opened Gpu

  const DEFAULT_SHININESS: real := 32.0

  /** The contents of a Material object whose texture flag has been set. */
  datatype MaterialState = MaterialState(diffuseMap: Option<Texture>, ambient: Vec3, diffuse: Vec3,
                                         specular: Vec3, shininess: real, hasTexture: bool)

  /** Binding dereferences the diffuse map whenever the flag says there is one. */
  predicate Bindable(m: MaterialState) {
    m.hasTexture ==> m.diffuseMap.Some?
  }

  /** The four material uniforms, in the order Material::Bind writes them. */
  function MaterialWrites(m: MaterialState, shader: string): seq<Cmd> {
    [SetUniform(shader, "material.ambient", Vec3Value(m.ambient)),
     SetUniform(shader, "material.diffuse", Vec3Value(m.diffuse)),
     SetUniform(shader, "material.specular", Vec3Value(m.specular)),
     SetUniform(shader, "material.shininess", FloatValue(m.shininess))]
  }

  /** Material::Bind: texture unit 0 gets the diffuse map when the material has
      a texture; the four material uniforms are written every time. */
  function Bind(m: MaterialState, shader: string): (r: seq<Cmd>)
    requires Bindable(m)
    ensures |r| == if m.hasTexture then 6 else 4
    ensures m.hasTexture ==> r[0] == ActivateTextureUnit(0) && r[1] == BindTexture(m.diffuseMap.value)
    ensures r[|r| - 4..] == MaterialWrites(m, shader)
  {
    var texture := if m.hasTexture then [ActivateTextureUnit(0), BindTexture(m.diffuseMap.value)] else [];
    texture + MaterialWrites(m, shader)
  }

  lemma MaterialWritesUniforms(m: MaterialState, shader: string)
    ensures Uniforms(MaterialWrites(m, shader), shader) ==
      map["material.ambient" := Vec3Value(m.ambient), "material.diffuse" := Vec3Value(m.diffuse),
          "material.specular" := Vec3Value(m.specular), "material.shininess" := FloatValue(m.shininess)]
  {
    var a := SetUniform(shader, "material.ambient", Vec3Value(m.ambient));
    var d := SetUniform(shader, "material.diffuse", Vec3Value(m.diffuse));
    var s := SetUniform(shader, "material.specular", Vec3Value(m.specular));
    UniformsSnoc([], "material.ambient", Vec3Value(m.ambient), shader);
    UniformsSnoc([a], "material.diffuse", Vec3Value(m.diffuse), shader);
    UniformsSnoc([a, d], "material.specular", Vec3Value(m.specular), shader);
    UniformsSnoc([a, d, s], "material.shininess", FloatValue(m.shininess), shader);
    assert [] + [a] == [a] && [a] + [d] == [a, d] && [a, d] + [s] == [a, d, s];
    assert [a, d, s] + [SetUniform(shader, "material.shininess", FloatValue(m.shininess))] == MaterialWrites(m, shader);
  }

  /** What Bind leaves in the shader: exactly the four material uniforms. */
  lemma BindUniforms(m: MaterialState, shader: string)
    requires Bindable(m)
    ensures Uniforms(Bind(m, shader), shader) ==
      map["material.ambient" := Vec3Value(m.ambient), "material.diffuse" := Vec3Value(m.diffuse),
          "material.specular" := Vec3Value(m.specular), "material.shininess" := FloatValue(m.shininess)]
  {
    var r := Bind(m, shader);
    var t := |r| - 4;
    var texture := r[..t];
    assert r == texture + MaterialWrites(m, shader);
    UniformsAppend(texture, MaterialWrites(m, shader), shader);
    UniformsUntouched(texture, shader);
    MaterialWritesUniforms(m, shader);
  }

  /** A texture is bound exactly when the flag is set. */
  lemma BindTextureIffFlag(m: MaterialState, shader: string)
    requires Bindable(m)
    ensures (exists k :: 0 <= k < |Bind(m, shader)| && Bind(m, shader)[k].BindTexture?) <==> m.hasTexture
  {
    var r := Bind(m, shader);
    if !m.hasTexture {
      assert forall k :: 0 <= k < |r| ==> r[k].SetUniform?;
    }
  }

  class Material {
    var diffuseMap: Option<Texture>
    var ambient: Vec3
    var diffuse: Vec3
    var specular: Vec3
    var shininess: real
    var hasTexture: bool
    /** Whether hasTexture holds a value: no constructor initialises it. */
    ghost var hasTextureSet: bool

    /** Material(): no diffuse map, white terms, shininess 32, flag unset. */
    constructor ()
      ensures diffuseMap == None && !hasTextureSet
      ensures ambient == ONES && diffuse == ONES && specular == ONES && shininess == DEFAULT_SHININESS
    {
      diffuseMap := None;
      ambient, diffuse, specular := ONES, ONES, ONES;
      shininess := DEFAULT_SHININESS;
      hasTextureSet := false;
    }

    /** Material(diffuseMap): stores the map (which may be null) but leaves the
        flag unset. */
    constructor WithDiffuseMap(m: Option<Texture>)
      ensures diffuseMap == m && !hasTextureSet
      ensures ambient == ONES && diffuse == ONES && specular == ONES && shininess == DEFAULT_SHININESS
    {
      diffuseMap := m;
      ambient, diffuse, specular := ONES, ONES, ONES;
      shininess := DEFAULT_SHININESS;
      hasTextureSet := false;
    }

    method SetAmbient(a: Vec3)
      modifies this
      ensures ambient == a
      ensures diffuse == old(diffuse) && specular == old(specular) && shininess == old(shininess)
      ensures diffuseMap == old(diffuseMap) && hasTexture == old(hasTexture) && hasTextureSet == old(hasTextureSet)
    {
      ambient := a;
    }

    method SetDiffuse(d: Vec3)
      modifies this
      ensures diffuse == d
      ensures ambient == old(ambient) && specular == old(specular) && shininess == old(shininess)
      ensures diffuseMap == old(diffuseMap) && hasTexture == old(hasTexture) && hasTextureSet == old(hasTextureSet)
    {
      diffuse := d;
    }

    method SetSpecular(s: Vec3)
      modifies this
      ensures specular == s
      ensures ambient == old(ambient) && diffuse == old(diffuse) && shininess == old(shininess)
      ensures diffuseMap == old(diffuseMap) && hasTexture == old(hasTexture) && hasTextureSet == old(hasTextureSet)
    {
      specular := s;
    }

    method SetShininess(s: real)
      modifies this
      ensures shininess == s
      ensures ambient == old(ambient) && diffuse == old(diffuse) && specular == old(specular)
      ensures diffuseMap == old(diffuseMap) && hasTexture == old(hasTexture) && hasTextureSet == old(hasTextureSet)
    {
      shininess := s;
    }

    /** Material::SetDiffuseMap: stores the map and sets the flag. */
    method SetDiffuseMap(m: Option<Texture>)
      modifies this
      ensures diffuseMap == m && hasTexture && hasTextureSet
      ensures ambient == old(ambient) && diffuse == old(diffuse) && specular == old(specular)
      ensures shininess == old(shininess)
    {
      diffuseMap := m;
      hasTexture := true;
      hasTextureSet := true;
    }

    /** Material::HasTexture; reading the flag before it is set is undefined. */
    function HasTexture(): bool
      requires hasTextureSet
      reads this
    {
      hasTexture
    }

    function State(): MaterialState
      requires hasTextureSet
      reads this
    {
      MaterialState(diffuseMap, ambient, diffuse, specular, shininess, hasTexture)
    }
  }
}
