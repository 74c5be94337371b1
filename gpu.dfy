/** What the engine asks of OpenGL, as an ordered list of commands, and the
    uniform state those commands leave in a shader program. */
module Gpu {
  import opened Glm
  import opened Assets

  /** The argument of a ShaderProgram::SetUniform overload. */
  datatype Value = IntValue(i: int) | FloatValue(f: real) | Vec3Value(v: Vec3) | Mat4Value(m: Mat4)

  datatype Cmd =
    | SetUniform(shader: string, name: string, value: Value)
    | BindShader(shader: string)
    | DrawMesh(mesh: Mesh)
    /** glActiveTexture(GL_TEXTURE0 + unit) */
    | ActivateTextureUnit(unit: int)
    | BindTexture(texture: Texture)
    /** ShadowMap::Write of the light's shadow map */
    | WriteShadowMap(index: int)
    /** ShadowMap::Read(GL_TEXTURE0 + unit) */
    | ReadShadowMap(index: int, unit: int)
    /** ShadowMap::SetTextureCompareMode: GL_COMPARE_REF_TO_TEXTURE when true, GL_NONE otherwise */
    | SetShadowCompareMode(index: int, compare: bool)
    /** glEnable(GL_POLYGON_OFFSET_FILL) followed by glPolygonOffset(factor, units) */
    | EnablePolygonOffset(factor: real, units: real)
    | DisablePolygonOffset
    /** glClear(GL_COLOR_BUFFER_BIT | GL_DEPTH_BUFFER_BIT) */
    | ClearColourAndDepth
    /** glBindFramebuffer(GL_FRAMEBUFFER, 0) */
    | BindDefaultFramebuffer
    | SetViewport(width: int, height: int)
    /** Skybox::PreRender(projection, view) followed by Skybox::Render */
    | DrawSkybox(skybox: string, projection: Mat4, view: Mat4)
    /** glPolygonMode(GL_FRONT_AND_BACK, GL_LINE when wireframe, GL_FILL otherwise) */
    | SetPolygonMode(wireframe: bool)
    | SetClearColour(colour: Vec4)
    | BindDebugQuad
    | DrawDebugQuad(width: int, height: int)
    /** glEnable / glDisable(GL_CULL_FACE) */
    | SetFaceCulling(enabled: bool)
    /** the vertex buffer of normal lines built by Debug::CreateNormals */
    | UploadLines(vertices: seq<Vec3>)

  /** Uniform values a shader holds after the commands, later writes winning. */
  function Uniforms(cmds: seq<Cmd>, shader: string): map<string, Value>
    decreases |cmds|
  {
    if |cmds| == 0 then map[]
    else
      var c := cmds[|cmds| - 1];
      var earlier := Uniforms(cmds[..|cmds| - 1], shader);
      if c.SetUniform? && c.shader == shader then earlier[c.name := c.value] else earlier
  }

  /** Running command lists one after another merges their uniform writes,
      the later list overriding the earlier one. */
  lemma {:induction false} UniformsAppend(a: seq<Cmd>, b: seq<Cmd>, shader: string)
    ensures Uniforms(a + b, shader) == Uniforms(a, shader) + Uniforms(b, shader)
    decreases |b|
  {
    if |b| == 0 {
      assert a + b == a;
    } else {
      var b' := b[..|b| - 1];
      assert (a + b)[..|a + b| - 1] == a + b';
      UniformsAppend(a, b', shader);
    }
  }

  /** One more write to the shader sets that uniform. */
  lemma UniformsSnoc(cmds: seq<Cmd>, name: string, v: Value, shader: string)
    ensures Uniforms(cmds + [SetUniform(shader, name, v)], shader) == Uniforms(cmds, shader)[name := v]
  {
    assert (cmds + [SetUniform(shader, name, v)])[..|cmds|] == cmds;
  }

  /** A command list that writes no uniform of this shader leaves it as it was. */
  lemma {:induction false} UniformsUntouched(cmds: seq<Cmd>, shader: string)
    requires forall k :: 0 <= k < |cmds| ==> !(cmds[k].SetUniform? && cmds[k].shader == shader)
    ensures Uniforms(cmds, shader) == map[]
    decreases |cmds|
  {
    if |cmds| > 0 {
      UniformsUntouched(cmds[..|cmds| - 1], shader);
    }
  }

  /** Whether command c writes uniform `name` of `shader`. */
  predicate Writes(c: Cmd, shader: string, name: string) {
    c.SetUniform? && c.shader == shader && c.name == name
  }

  /** Commands that never write a uniform leave its value as it was. */
  lemma LaterSilenceKeeps(a: seq<Cmd>, b: seq<Cmd>, shader: string, name: string)
    requires name in Uniforms(a, shader)
    requires forall k :: 0 <= k < |b| ==> !Writes(b[k], shader, name)
    ensures name in Uniforms(a + b, shader) && Uniforms(a + b, shader)[name] == Uniforms(a, shader)[name]
  {
    UniformsAppend(a, b, shader);
    WrittenNames(b, shader, name);
  }

  /** The value a shader holds for a uniform is the one its last write set. */
  lemma {:induction false} LastWriteWins(cmds: seq<Cmd>, shader: string, k: nat)
    requires k < |cmds| && cmds[k].SetUniform? && cmds[k].shader == shader
    requires forall j :: k < j < |cmds| ==> !Writes(cmds[j], shader, cmds[k].name)
    ensures cmds[k].name in Uniforms(cmds, shader)
    ensures Uniforms(cmds, shader)[cmds[k].name] == cmds[k].value
    decreases |cmds|
  {
    if k < |cmds| - 1 {
      var init := cmds[..|cmds| - 1];
      assert init[k] == cmds[k];
      assert !Writes(cmds[|cmds| - 1], shader, cmds[k].name);
      LastWriteWins(init, shader, k);
    }
  }

  /** The uniforms a shader holds are exactly the names the commands write in it. */
  lemma {:induction false} WrittenNames(cmds: seq<Cmd>, shader: string, name: string)
    ensures name in Uniforms(cmds, shader) <==> exists k :: 0 <= k < |cmds| && Writes(cmds[k], shader, name)
    decreases |cmds|
  {
    if |cmds| > 0 {
      var init := cmds[..|cmds| - 1];
      WrittenNames(init, shader, name);
      if exists k :: 0 <= k < |init| && Writes(init[k], shader, name) {
        var k :| 0 <= k < |init| && Writes(init[k], shader, name);
        assert cmds[k] == init[k];
      }
      if exists k :: 0 <= k < |cmds| && Writes(cmds[k], shader, name) {
        var k :| 0 <= k < |cmds| && Writes(cmds[k], shader, name);
        if k < |init| {
          assert init[k] == cmds[k];
        }
      }
    }
  }

  /** Concatenation of f over xs, in order. */
  function ConcatMap<T>(xs: seq<T>, f: T -> seq<Cmd>): seq<Cmd>
    decreases |xs|
  {
    if |xs| == 0 then [] else ConcatMap(xs[..|xs| - 1], f) + f(xs[|xs| - 1])
  }

  lemma ConcatMapStep<T>(xs: seq<T>, i: nat, f: T -> seq<Cmd>)
    requires i < |xs|
    ensures ConcatMap(xs[..i + 1], f) == ConcatMap(xs[..i], f) + f(xs[i])
  {
    assert xs[..i + 1][..i] == xs[..i];
  }

  lemma ConcatMapAll<T>(xs: seq<T>, f: T -> seq<Cmd>)
    ensures ConcatMap(xs[..|xs|], f) == ConcatMap(xs, f)
  {
    assert xs[..|xs|] == xs;
  }

  /** A command kind that no piece contains is absent from the whole. */
  lemma {:induction false} ConcatMapAvoids<T>(xs: seq<T>, f: T -> seq<Cmd>, p: Cmd -> bool)
    requires forall x :: x in xs ==> forall k :: 0 <= k < |f(x)| ==> !p(f(x)[k])
    ensures forall k :: 0 <= k < |ConcatMap(xs, f)| ==> !p(ConcatMap(xs, f)[k])
    decreases |xs|
  {
    if |xs| > 0 {
      var init := xs[..|xs| - 1];
      assert forall x :: x in init ==> x in xs;
      ConcatMapAvoids(init, f, p);
    }
  }

  /** Number of commands satisfying p. */
  function Count(cmds: seq<Cmd>, p: Cmd -> bool): nat
    decreases |cmds|
  {
    if |cmds| == 0 then 0 else Count(cmds[..|cmds| - 1], p) + (if p(cmds[|cmds| - 1]) then 1 else 0)
  }

  lemma {:induction false} CountAppend(a: seq<Cmd>, b: seq<Cmd>, p: Cmd -> bool)
    ensures Count(a + b, p) == Count(a, p) + Count(b, p)
    decreases |b|
  {
    if |b| == 0 {
      assert a + b == a;
    } else {
      assert (a + b)[..|a + b| - 1] == a + b[..|b| - 1];
      CountAppend(a, b[..|b| - 1], p);
    }
  }

  /** No command satisfying `later` comes before one satisfying `earlier`. */
  predicate Precedes(cmds: seq<Cmd>, earlier: Cmd -> bool, later: Cmd -> bool) {
    forall i, j :: 0 <= i < j < |cmds| && later(cmds[i]) ==> !earlier(cmds[j])
  }

  predicate Avoids(cmds: seq<Cmd>, p: Cmd -> bool) {
    forall k :: 0 <= k < |cmds| ==> !p(cmds[k])
  }

  lemma AvoidsAppend(a: seq<Cmd>, b: seq<Cmd>, p: Cmd -> bool)
    requires Avoids(a, p) && Avoids(b, p)
    ensures Avoids(a + b, p)
  {
    forall k | 0 <= k < |a + b|
      ensures !p((a + b)[k])
    {
      if |a| <= k {
        assert (a + b)[k] == b[k - |a|];
      }
    }
  }

  lemma PrecedesAppend(a: seq<Cmd>, b: seq<Cmd>, earlier: Cmd -> bool, later: Cmd -> bool)
    requires Avoids(a, later) && Avoids(b, earlier)
    ensures Precedes(a + b, earlier, later)
  {
    var c := a + b;
    forall i, j | 0 <= i < j < |c| && later(c[i])
      ensures !earlier(c[j])
    {
      if |a| <= i {
        assert c[j] == b[j - |a|];
      }
    }
  }
}
