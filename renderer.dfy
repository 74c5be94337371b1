/** The per-frame render orchestration of Renderer.cpp. A frame is the list
    of GPU commands it issues; `Frame` defines that list from the renderer's
    flags and a snapshot of the scene, `Renderer.Render` issues it step by
    step, and the lemmas state the order and the uniform values it leaves. */
module Rendering {
  import opened Wrappers
  import opened Glm
  import opened Text
  import opened Assets
  import opened Gpu
  import opened Constants
  import opened Lights
  import opened Materials
  import opened Entities

  const SHADOW_MAP_SHADER: string := "shadow-map"
  const FLAT_COLOUR_SHADER: string := "flat-colour"
  const DEBUG_QUAD_SHADER: string := "debug-quad"
  /** ShadowMap::START_TEXTURE_SLOT: light i's shadow map is read from unit 1 + i. */
  const START_TEXTURE_SLOT: int := 1
  /** The matrix uniforms every drawing shader takes. */
  const MODEL_TO_WORLD: string := "modelToWorldMatrix"
  const MODEL_VIEW_PROJ: string := "modelViewProjMatrix"
  /** glPolygonOffset(1.1f, 4.0f) during shadow passes. */
  const POLYGON_OFFSET_FACTOR: real := 1.1
  const POLYGON_OFFSET_UNITS: real := 4.0
  const WIREFRAME_COLOUR: Vec3 := Vec3(1.0, 1.0, 1.0)
  const WIREFRAME_CLEAR_COLOUR: Vec3 := Vec3(0.0, 0.0, 0.0)
  const POINT_LIGHT_MESH_SCALE: Vec3 := Vec3(0.1, 0.1, 0.1)

  /** The columns of BIAS_MATRIX. */
  const BIAS_C0: Vec4 := Vec4(0.5, 0.0, 0.0, 0.0)
  const BIAS_C1: Vec4 := Vec4(0.0, 0.5, 0.0, 0.0)
  const BIAS_C2: Vec4 := Vec4(0.0, 0.0, 0.5, 0.0)
  const BIAS_C3: Vec4 := Vec4(0.5, 0.5, 0.5, 1.0)

  function BiasMatrix(): Mat4 {
    FromColumns(BIAS_C0, BIAS_C1, BIAS_C2, BIAS_C3)
  }

  /** BIAS_MATRIX takes a point (x, y, z, 1) to (x/2 + 1/2, y/2 + 1/2, z/2 + 1/2, 1),
      so clip coordinates in [-1, 1] become texture coordinates in [0, 1]. */
  lemma BiasMapsClipToTexture(v: Vec4)
    requires v.w == 1.0
    ensures ApplyColumns(BIAS_C0, BIAS_C1, BIAS_C2, BIAS_C3, v) ==
      Vec4(0.5 * v.x + 0.5, 0.5 * v.y + 0.5, 0.5 * v.z + 0.5, 1.0)
    ensures -1.0 <= v.x <= 1.0 && -1.0 <= v.y <= 1.0 && -1.0 <= v.z <= 1.0 ==>
      var r := ApplyColumns(BIAS_C0, BIAS_C1, BIAS_C2, BIAS_C3, v);
      0.0 <= r.x <= 1.0 && 0.0 <= r.y <= 1.0 && 0.0 <= r.z <= 1.0
  {
  }

  /** What a frame reads of the engine: the entities, the active lights
      (m_lights[0 .. GetLightCount()), the point lights, the names of the
      registered shaders, what GetMesh("sphere.obj") finds (None for a
      missing or null entry), the window size and the camera. */
  datatype Scene = Scene(entities: seq<EntityState>, lights: seq<LightState>, pointLights: seq<LightState>,
                         shaders: set<string>, lightMesh: Option<Mesh>, width: int, height: int,
                         projection: Mat4, view: Mat4, eyePosition: Vec3)

  /** The renderer's own state that a frame depends on. */
  datatype Flags = Flags(wireframe: bool, renderShadowMap: bool, renderPointLights: bool,
                         shadowMapViewIndex: int, skybox: Option<string>)

  // ---------------------------------------------------------------- the frame, as data

  /** The light loop at the top of Render: light i writes its uniforms into
      both default shaders, with i as its shadow index. */
  function LightUniforms(lights: seq<LightState>): seq<Cmd>
    decreases |lights|
  {
    if |lights| == 0 then []
    else
      var n := |lights| - 1;
      LightUniforms(lights[..n]) + LightBlock(lights[n], n)
  }

  /** Light i's uniforms in both default shaders, with shadow index i. */
  function LightBlock(l: LightState, i: int): seq<Cmd> {
    SetUniforms(l, DEFAULT_SHADER_NAME_TEXTURE, i) + SetUniforms(l, DEFAULT_SHADER_NAME_TEXTURELESS, i)
  }

  function EyeUniforms(eye: Vec3): seq<Cmd> {
    [SetUniform(DEFAULT_SHADER_NAME_TEXTURE, "eyePositionWorld", Vec3Value(eye)),
     SetUniform(DEFAULT_SHADER_NAME_TEXTURELESS, "eyePositionWorld", Vec3Value(eye))]
  }

  function FrameUniforms(scene: Scene): seq<Cmd> {
    EyeUniforms(scene.eyePosition) + LightUniforms(scene.lights)
  }

  /** One entity in a shadow pass. */
  function ShadowDraw(lightMatrix: Mat4, e: EntityState): seq<Cmd> {
    [SetUniform(SHADOW_MAP_SHADER, "lightMatrix", Mat4Value(Mul(lightMatrix, e.model))), DrawMesh(e.mesh)]
  }

  function ShadowDraws(lightMatrix: Mat4, entities: seq<EntityState>): seq<Cmd>
    decreases |entities|
  {
    if |entities| == 0 then []
    else ShadowDraws(lightMatrix, entities[..|entities| - 1]) + ShadowDraw(lightMatrix, entities[|entities| - 1])
  }

  /** Renderer::ShadowPass. */
  function ShadowPassCmds(lightMatrix: Mat4, entities: seq<EntityState>): seq<Cmd> {
    [EnablePolygonOffset(POLYGON_OFFSET_FACTOR, POLYGON_OFFSET_UNITS), ClearColourAndDepth, BindShader(SHADOW_MAP_SHADER)]
      + ShadowDraws(lightMatrix, entities) + [DisablePolygonOffset]
  }

  /** Light i's part of the shadow loop in Render: nothing without shadow data. */
  function LightShadowCmds(i: int, l: LightState, entities: seq<EntityState>): seq<Cmd> {
    if l.shadow.Some? then
      [WriteShadowMap(i)] + ShadowPassCmds(LightMatrix(l.shadow.value), entities)
        + [ReadShadowMap(i, START_TEXTURE_SLOT + i)]
    else []
  }

  function ShadowPhase(lights: seq<LightState>, entities: seq<EntityState>): seq<Cmd>
    decreases |lights|
  {
    if |lights| == 0 then []
    else
      var n := |lights| - 1;
      ShadowPhase(lights[..n], entities) + LightShadowCmds(n, lights[n], entities)
  }

  /** BIAS_MATRIX * lightMatrix, stored in lightMatrices[i]. */
  function BiasedLightMatrix(l: LightState): Mat4
    requires l.shadow.Some?
  {
    Mul(BiasMatrix(), LightMatrix(l.shadow.value))
  }

  predicate AllShadowed(lights: seq<LightState>) {
    forall k :: 0 <= k < |lights| ==> lights[k].shadow.Some?
  }

  /** Some light has shadow data, so the shadow loop runs a ShadowPass. */
  predicate SomeShadowed(lights: seq<LightState>) {
    exists k :: 0 <= k < |lights| && lights[k].shadow.Some?
  }

  function BiasedMatrices(lights: seq<LightState>): (r: seq<Mat4>)
    requires AllShadowed(lights)
    ensures |r| == |lights|
  {
    seq(|lights|, k requires 0 <= k < |lights| => BiasedLightMatrix(lights[k]))
  }

  /** The per-light uniforms of one entity in the shaded pass, lights 0 .. n-1. */
  function LightWrites(shader: string, lights: seq<LightState>, matrices: seq<Mat4>, model: Mat4, n: nat): seq<Cmd>
    requires n <= |lights| && n <= |matrices| && AllShadowed(lights)
    decreases n
  {
    if n == 0 then []
    else
      LightWrites(shader, lights, matrices, model, n - 1)
        + [SetUniform(shader, Indexed("shadowBiases", n - 1, ""), FloatValue(lights[n - 1].shadow.value.shadowBias)),
           SetUniform(shader, Indexed("lightMatrices", n - 1, ""), Mat4Value(Mul(matrices[n - 1], model)))]
  }

  /** An entity the shaded pass can draw: it has a shader and a bindable material. */
  predicate Drawable(e: EntityState) {
    e.shader.Some? && Bindable(e.material)
  }

  function EntityRenderCmds(e: EntityState, lights: seq<LightState>, matrices: seq<Mat4>,
                            projection: Mat4, view: Mat4): seq<Cmd>
    requires Drawable(e) && |lights| <= |matrices| && AllShadowed(lights)
  {
    var s := e.shader.value;
    [BindShader(s)] + Materials.Bind(e.material, s) + LightWrites(s, lights, matrices, e.model, |lights|)
      + [SetUniform(s, MODEL_TO_WORLD, Mat4Value(e.model)),
         SetUniform(s, MODEL_VIEW_PROJ, Mat4Value(Mul(Mul(projection, view), e.model))),
         DrawMesh(e.mesh)]
  }

  predicate AllDrawable(entities: seq<EntityState>) {
    forall k :: 0 <= k < |entities| ==> Drawable(entities[k])
  }

  function EntityRenders(entities: seq<EntityState>, lights: seq<LightState>, matrices: seq<Mat4>,
                         projection: Mat4, view: Mat4): seq<Cmd>
    requires AllDrawable(entities) && |lights| <= |matrices| && AllShadowed(lights)
    decreases |entities|
  {
    if |entities| == 0 then []
    else
      var n := |entities| - 1;
      EntityRenders(entities[..n], lights, matrices, projection, view)
        + EntityRenderCmds(entities[n], lights, matrices, projection, view)
  }

  /** Renderer::RenderPass. */
  function RenderPassCmds(scene: Scene, skybox: Option<string>, matrices: seq<Mat4>): seq<Cmd>
    requires AllDrawable(scene.entities) && |scene.lights| <= |matrices| && AllShadowed(scene.lights)
  {
    RenderPassHead(scene, skybox) + EntityRenders(scene.entities, scene.lights, matrices, scene.projection, scene.view)
  }

  /** What RenderPass issues before the entities: the window's framebuffer,
      the viewport, the clear and the optional skybox. */
  function RenderPassHead(scene: Scene, skybox: Option<string>): seq<Cmd> {
    [BindDefaultFramebuffer, SetViewport(scene.width, scene.height), ClearColourAndDepth]
      + (if skybox.Some? then [DrawSkybox(skybox.value, scene.projection, scene.view)] else [])
  }

  /** Renderer::RenderShadowMapView for the shadow map of light `index`. */
  function ShadowMapViewCmds(index: int, s: ShadowState, width: int, height: int): seq<Cmd> {
    [BindDefaultFramebuffer, BindDebugQuad,
     SetUniform(DEBUG_QUAD_SHADER, "isOrtho", IntValue(if s.isOrthographic then 1 else 0))]
      + (if !s.isOrthographic then [SetUniform(DEBUG_QUAD_SHADER, "nearZ", FloatValue(s.nearPlane)),
                                    SetUniform(DEBUG_QUAD_SHADER, "farZ", FloatValue(s.farPlane))] else [])
      + [SetShadowCompareMode(index, false), ReadShadowMap(index, 0), DrawDebugQuad(width, height),
         SetShadowCompareMode(index, true)]
  }

  function MarkerModel(position: Vec3): Mat4 {
    ScaleBy(Translate(Identity, position), POINT_LIGHT_MESH_SCALE)
  }

  /** Renderer::RenderPointLight. */
  function MarkerCmds(mesh: Mesh, shader: string, position: Vec3, colour: Vec3, projection: Mat4, view: Mat4): seq<Cmd> {
    [SetUniform(shader, "diffuseColour", Vec3Value(colour)),
     SetUniform(shader, MODEL_VIEW_PROJ, Mat4Value(Mul(Mul(projection, view), MarkerModel(position)))),
     DrawMesh(mesh)]
  }

  predicate AllPoints(lights: seq<LightState>) {
    forall k :: 0 <= k < |lights| ==> lights[k].shape.PointShape?
  }

  /** The point lights can be drawn: each is a point light, and the marker
      mesh was found (GetMesh asserts that it is not null). */
  predicate MarkersDrawable(scene: Scene) {
    AllPoints(scene.pointLights) && scene.lightMesh.Some?
  }

  /** One marker per point light, white in wireframe mode and in the light's
      diffuse colour otherwise. */
  function Markers(scene: Scene, wireframe: bool): seq<Cmd>
    requires MarkersDrawable(scene)
  {
    MarkersOf(scene.pointLights, scene, wireframe)
  }

  function MarkersOf(pointLights: seq<LightState>, scene: Scene, wireframe: bool): seq<Cmd>
    requires AllPoints(pointLights) && scene.lightMesh.Some?
    decreases |pointLights|
  {
    if |pointLights| == 0 then []
    else
      var n := |pointLights| - 1;
      var l := pointLights[n];
      MarkersOf(pointLights[..n], scene, wireframe)
        + MarkerCmds(scene.lightMesh.value, FLAT_COLOUR_SHADER, l.shape.position,
                     if wireframe then WIREFRAME_COLOUR else Diffuse(l), scene.projection, scene.view)
  }

  /** Renderer::RenderPointLights. */
  function PointLightsCmds(scene: Scene): seq<Cmd>
    requires MarkersDrawable(scene)
  {
    [BindShader(FLAT_COLOUR_SHADER)] + Markers(scene, false)
  }

  function WireframeDraw(e: EntityState, projection: Mat4, view: Mat4): seq<Cmd> {
    [SetUniform(FLAT_COLOUR_SHADER, MODEL_VIEW_PROJ, Mat4Value(Mul(Mul(projection, view), e.model))), DrawMesh(e.mesh)]
  }

  function WireframeDraws(entities: seq<EntityState>, projection: Mat4, view: Mat4): seq<Cmd>
    decreases |entities|
  {
    if |entities| == 0 then []
    else
      WireframeDraws(entities[..|entities| - 1], projection, view)
        + WireframeDraw(entities[|entities| - 1], projection, view)
  }

  /** Renderer::RenderWireframeMode. */
  function WireframeCmds(scene: Scene): seq<Cmd>
    requires MarkersDrawable(scene)
  {
    [ClearColourAndDepth, BindShader(FLAT_COLOUR_SHADER),
     SetUniform(FLAT_COLOUR_SHADER, "diffuseColour", Vec3Value(WIREFRAME_COLOUR))]
      + WireframeDraws(scene.entities, scene.projection, scene.view) + Markers(scene, true)
  }

  /** What Render needs to be defined: at most MAX_LIGHTS lights, and, outside
      wireframe mode, a shader and material for every entity, shadow data for
      every active light (RenderPass reads it without a null check) and a
      shadow-map view index that names an active light. The asset lookups
      of the frame must also succeed, since each fails an assertion
      otherwise: "shadow-map" once a light casts a shadow, and "flat-colour"
      and the marker mesh in wireframe mode or when point lights are drawn. */
  predicate Renderable(f: Flags, scene: Scene) {
    |scene.lights| <= MAX_LIGHTS && AllPoints(scene.pointLights) &&
    (f.wireframe ==> FLAT_COLOUR_SHADER in scene.shaders && scene.lightMesh.Some?) &&
    (!f.wireframe ==>
      AllDrawable(scene.entities) && AllShadowed(scene.lights) &&
      (SomeShadowed(scene.lights) ==> SHADOW_MAP_SHADER in scene.shaders) &&
      (f.renderShadowMap ==> 0 <= f.shadowMapViewIndex < |scene.lights|) &&
      (f.renderPointLights ==> FLAT_COLOUR_SHADER in scene.shaders && scene.lightMesh.Some?))
  }

  /** What Render issues after the light uniforms when not in wireframe mode:
      the shadow passes, the shaded pass, then the optional shadow-map view
      and the optional point-light markers. */
  function ShadedCmds(f: Flags, scene: Scene): seq<Cmd>
    requires Renderable(f, scene) && !f.wireframe
  {
    ShadowPhase(scene.lights, scene.entities) + OnScreen(f, scene)
  }

  /** The shaded pass, then the shadow-map view and the point-light markers
      when they are enabled. */
  function OnScreen(f: Flags, scene: Scene): seq<Cmd>
    requires Renderable(f, scene) && !f.wireframe
  {
    RenderPassCmds(scene, f.skybox, BiasedMatrices(scene.lights))
      + (if f.renderShadowMap
         then ShadowMapViewCmds(f.shadowMapViewIndex, scene.lights[f.shadowMapViewIndex].shadow.value, scene.width, scene.height)
         else [])
      + (if f.renderPointLights then PointLightsCmds(scene) else [])
  }


  /** Renderer::Render. */
  function Frame(f: Flags, scene: Scene): seq<Cmd>
    requires Renderable(f, scene)
  {
    FrameUniforms(scene) + if f.wireframe then WireframeCmds(scene) else ShadedCmds(f, scene)
  }

  /** The two uniform writes of BeforeFirstRender's loop for slot i. */
  function ShadowMapSlot(i: int): seq<Cmd> {
    [SetUniform(DEFAULT_SHADER_NAME_TEXTURE, Indexed("shadowMaps", i, ""), IntValue(i + 1)),
     SetUniform(DEFAULT_SHADER_NAME_TEXTURELESS, Indexed("shadowMaps", i, ""), IntValue(i + 1))]
  }

  function ShadowMapSlots(n: nat): seq<Cmd>
    decreases n
  {
    if n == 0 then [] else ShadowMapSlots(n - 1) + ShadowMapSlot(n - 1)
  }

  /** DebugQuad's default size and place (DebugQuad.h): a quarter of each
      side, in the top-right corner. */
  const DEBUG_QUAD_WIDTH: real := 0.25
  const DEBUG_QUAD_HEIGHT: real := 0.25
  const DEBUG_QUAD_POS_X: real := 1.0 - DEBUG_QUAD_WIDTH
  const DEBUG_QUAD_POS_Y: real := 1.0 - DEBUG_QUAD_HEIGHT

  /** DebugQuad::Initialise with the "debug-quad" shader: its scale and its translation. */
  function DebugQuadInit(): seq<Cmd> {
    [SetUniform(DEBUG_QUAD_SHADER, "scale", Mat4Value(ScaleBy(Identity, Vec3(DEBUG_QUAD_WIDTH, DEBUG_QUAD_HEIGHT, 0.0)))),
     SetUniform(DEBUG_QUAD_SHADER, "translation", Mat4Value(Translate(Identity, Vec3(DEBUG_QUAD_POS_X, DEBUG_QUAD_POS_Y, 0.0))))]
  }

  /** The ambient and light-count writes to both default shaders. */
  function DefaultShaderUniforms(ambient: Vec3, pointLights: int, dirLights: int): seq<Cmd> {
    [SetUniform(DEFAULT_SHADER_NAME_TEXTURE, "globalAmbientLight", Vec3Value(ambient)),
     SetUniform(DEFAULT_SHADER_NAME_TEXTURELESS, "globalAmbientLight", Vec3Value(ambient)),
     SetUniform(DEFAULT_SHADER_NAME_TEXTURE, "dirLightCount", IntValue(dirLights)),
     SetUniform(DEFAULT_SHADER_NAME_TEXTURE, "pointLightCount", IntValue(pointLights)),
     SetUniform(DEFAULT_SHADER_NAME_TEXTURELESS, "dirLightCount", IntValue(dirLights)),
     SetUniform(DEFAULT_SHADER_NAME_TEXTURELESS, "pointLightCount", IntValue(pointLights))]
  }

  /** The uniforms Renderer::BeforeFirstRender writes. */
  function BeforeFirstRenderCmds(ambient: Vec3, pointLights: int, dirLights: int, lightCount: nat): seq<Cmd> {
    DebugQuadInit() + DefaultShaderUniforms(ambient, pointLights, dirLights) + ShadowMapSlots(lightCount)
  }

  /** The two commands of ToggleWireframeRendering for the new flag value. */
  function WireframeToggleCmds(enabled: bool, defaultClearColour: Vec4): seq<Cmd> {
    if enabled then [SetPolygonMode(true), SetClearColour(Vec4(WIREFRAME_CLEAR_COLOUR.x, WIREFRAME_CLEAR_COLOUR.y, WIREFRAME_CLEAR_COLOUR.z, 1.0))]
    else [SetPolygonMode(false), SetClearColour(defaultClearColour)]
  }

  /** The index after one press: (index + 1) mod lightCount. */
  function NextIndex(index: int, lightCount: int): int
    requires lightCount > 0
  {
    (index + 1) % lightCount
  }

  /** The shadow-map view index after `presses` presses. */
  function IndexAfter(index: int, lightCount: int, presses: nat): int
    requires lightCount > 0
    decreases presses
  {
    if presses == 0 then index else NextIndex(IndexAfter(index, lightCount, presses - 1), lightCount)
  }

  lemma ShadowPhaseStep(lights: seq<LightState>, entities: seq<EntityState>, i: nat)
    requires i < |lights|
    ensures ShadowPhase(lights[..i + 1], entities) == ShadowPhase(lights[..i], entities) + LightShadowCmds(i, lights[i], entities)
  {
    assert lights[..i + 1][..i] == lights[..i];
  }

  lemma EntityRendersStep(entities: seq<EntityState>, lights: seq<LightState>, matrices: seq<Mat4>,
                          projection: Mat4, view: Mat4, i: nat)
    requires AllDrawable(entities) && |lights| <= |matrices| && AllShadowed(lights) && i < |entities|
    ensures AllDrawable(entities[..i]) && AllDrawable(entities[..i + 1])
    ensures EntityRenders(entities[..i + 1], lights, matrices, projection, view) ==
      EntityRenders(entities[..i], lights, matrices, projection, view) + EntityRenderCmds(entities[i], lights, matrices, projection, view)
  {
    assert entities[..i + 1][..i] == entities[..i];
  }

  // ---------------------------------------------------------------- the renderer

  /** Renderer::ShadowPass. */
  method ShadowPass(lightMatrix: Mat4, entities: seq<EntityState>, shaders: set<string>) returns (cmds: seq<Cmd>)
    requires SHADOW_MAP_SHADER in shaders
    ensures cmds == ShadowPassCmds(lightMatrix, entities)
  {
    cmds := [EnablePolygonOffset(POLYGON_OFFSET_FACTOR, POLYGON_OFFSET_UNITS), ClearColourAndDepth, BindShader(SHADOW_MAP_SHADER)];
    ghost var start := cmds;
    var i := 0;
    while i < |entities|
      invariant 0 <= i <= |entities| && cmds == start + ShadowDraws(lightMatrix, entities[..i])
    {
      var entity := entities[i];
      assert entities[..i + 1][..i] == entities[..i];
      cmds := cmds + [SetUniform(SHADOW_MAP_SHADER, "lightMatrix", Mat4Value(Mul(lightMatrix, entity.model)))];
      cmds := cmds + [DrawMesh(entity.mesh)];
      i := i + 1;
    }
    assert entities[..i] == entities;
    cmds := cmds + [DisablePolygonOffset];
  }

  /** The shadow loop of Renderer::Render: lightMatrices[i] receives the biased
      light matrix of every light i that has shadow data. */
  method ShadowPasses(lights: seq<LightState>, entities: seq<EntityState>, shaders: set<string>, lightMatrices: array<Mat4>)
    returns (cmds: seq<Cmd>)
    requires |lights| <= lightMatrices.Length && (SomeShadowed(lights) ==> SHADOW_MAP_SHADER in shaders)
    modifies lightMatrices
    ensures cmds == ShadowPhase(lights, entities)
    ensures forall k :: 0 <= k < |lights| && lights[k].shadow.Some? ==> lightMatrices[k] == BiasedLightMatrix(lights[k])
  {
    cmds := [];
    var i := 0;
    while i < |lights|
      invariant 0 <= i <= |lights| && cmds == ShadowPhase(lights[..i], entities)
      invariant forall k :: 0 <= k < i && lights[k].shadow.Some? ==> lightMatrices[k] == BiasedLightMatrix(lights[k])
    {
      ShadowPhaseStep(lights, entities, i);
      var block := LightShadowPass(i, lights[i], entities, shaders, lightMatrices);
      cmds := cmds + block;
      i := i + 1;
    }
    assert lights[..i] == lights;
  }

  /** The body of the shadow loop for light i. */
  method LightShadowPass(i: nat, l: LightState, entities: seq<EntityState>, shaders: set<string>, lightMatrices: array<Mat4>)
    returns (block: seq<Cmd>)
    requires i < lightMatrices.Length && (l.shadow.Some? ==> SHADOW_MAP_SHADER in shaders)
    modifies lightMatrices
    ensures block == LightShadowCmds(i, l, entities)
    ensures l.shadow.Some? ==> lightMatrices[i] == BiasedLightMatrix(l)
    ensures forall k :: 0 <= k < lightMatrices.Length && k != i ==> lightMatrices[k] == old(lightMatrices[k])
  {
    block := [];
    var shadowData := l.shadow;
    if shadowData.Some? {
      var lightMatrix := LightMatrix(shadowData.value);
      var pass := ShadowPass(lightMatrix, entities, shaders);
      block := [WriteShadowMap(i)] + pass + [ReadShadowMap(i, START_TEXTURE_SLOT + i)];
      lightMatrix := Mul(BiasMatrix(), lightMatrix);
      lightMatrices[i] := lightMatrix;
    }
  }

  /** Renderer::RenderPass. */
  method RenderPass(scene: Scene, skybox: Option<string>, lightMatrices: seq<Mat4>) returns (cmds: seq<Cmd>)
    requires AllDrawable(scene.entities) && |scene.lights| <= |lightMatrices| && AllShadowed(scene.lights)
    ensures cmds == RenderPassCmds(scene, skybox, lightMatrices)
  {
    cmds := [BindDefaultFramebuffer, SetViewport(scene.width, scene.height), ClearColourAndDepth];
    if skybox.Some? {
      cmds := cmds + [DrawSkybox(skybox.value, scene.projection, scene.view)];
    }
    var entities := scene.entities;
    var drawn := [];
    var i := 0;
    while i < |entities|
      invariant 0 <= i <= |entities|
      invariant drawn == EntityRenders(entities[..i], scene.lights, lightMatrices, scene.projection, scene.view)
    {
      EntityRendersStep(entities, scene.lights, lightMatrices, scene.projection, scene.view, i);
      var entity := entities[i];
      var entityCmds := RenderEntity(entity, scene.lights, lightMatrices, scene.projection, scene.view);
      drawn := drawn + entityCmds;
      i := i + 1;
    }
    assert entities[..i] == entities;
    cmds := cmds + drawn;
  }

  /** The body of RenderPass's entity loop, with its loop over the lights. */
  method RenderEntity(entity: EntityState, lights: seq<LightState>, lightMatrices: seq<Mat4>,
                      projection: Mat4, view: Mat4) returns (cmds: seq<Cmd>)
    requires Drawable(entity) && |lights| <= |lightMatrices| && AllShadowed(lights)
    ensures cmds == EntityRenderCmds(entity, lights, lightMatrices, projection, view)
  {
    var shader := entity.shader.value;
    cmds := [BindShader(shader)] + Materials.Bind(entity.material, shader);
    var modelMatrix := entity.model;
    var lightCount := |lights|;
    var perLight := [];
    var i := 0;
    while i < lightCount
      invariant 0 <= i <= lightCount && perLight == LightWrites(shader, lights, lightMatrices, modelMatrix, i)
    {
      var shadowData := lights[i].shadow.value;
      perLight := perLight + [SetUniform(shader, Indexed("shadowBiases", i, ""), FloatValue(shadowData.shadowBias))];
      perLight := perLight + [SetUniform(shader, Indexed("lightMatrices", i, ""), Mat4Value(Mul(lightMatrices[i], modelMatrix)))];
      i := i + 1;
    }
    cmds := cmds + perLight;
    cmds := cmds + [SetUniform(shader, MODEL_TO_WORLD, Mat4Value(modelMatrix))];
    cmds := cmds + [SetUniform(shader, MODEL_VIEW_PROJ, Mat4Value(Mul(Mul(projection, view), modelMatrix)))];
    cmds := cmds + [DrawMesh(entity.mesh)];
  }

  /** Renderer::RenderWireframeMode. */
  method RenderWireframeMode(scene: Scene) returns (cmds: seq<Cmd>)
    requires MarkersDrawable(scene) && FLAT_COLOUR_SHADER in scene.shaders
    ensures cmds == WireframeCmds(scene)
  {
    cmds := [ClearColourAndDepth, BindShader(FLAT_COLOUR_SHADER),
             SetUniform(FLAT_COLOUR_SHADER, "diffuseColour", Vec3Value(WIREFRAME_COLOUR))];
    ghost var start := cmds;
    var entities := scene.entities;
    var i := 0;
    while i < |entities|
      invariant 0 <= i <= |entities| && cmds == start + WireframeDraws(entities[..i], scene.projection, scene.view)
    {
      assert entities[..i + 1][..i] == entities[..i];
      cmds := cmds + WireframeDraw(entities[i], scene.projection, scene.view);
      i := i + 1;
    }
    assert entities[..i] == entities;
    var markers := RenderMarkers(scene, true);
    cmds := cmds + markers;
  }

  /** The point-light loop shared by RenderWireframeMode and RenderPointLights. */
  method RenderMarkers(scene: Scene, wireframe: bool) returns (cmds: seq<Cmd>)
    requires MarkersDrawable(scene) && FLAT_COLOUR_SHADER in scene.shaders
    ensures cmds == Markers(scene, wireframe)
  {
    cmds := [];
    var pointLights := scene.pointLights;
    var i := 0;
    while i < |pointLights|
      invariant 0 <= i <= |pointLights| && cmds == MarkersOf(pointLights[..i], scene, wireframe)
    {
      assert pointLights[..i + 1][..i] == pointLights[..i];
      var l := pointLights[i];
      var colour := if wireframe then WIREFRAME_COLOUR else Diffuse(l);
      cmds := cmds + MarkerCmds(scene.lightMesh.value, FLAT_COLOUR_SHADER, l.shape.position, colour, scene.projection, scene.view);
      i := i + 1;
    }
    assert pointLights[..i] == pointLights;
  }

  /** The part of Renderer::Render after the wireframe check. Light i's
      shadow pass fills lightMatrices[i], which the shaded pass reads. */
  method RenderShaded(f: Flags, scene: Scene) returns (cmds: seq<Cmd>)
    requires Renderable(f, scene) && !f.wireframe
    ensures cmds == ShadedCmds(f, scene)
  {
    var lights := scene.lights;
    var n := |lights|;
    var lightMatrices := new Mat4[MAX_LIGHTS];
    var shadow := ShadowPasses(lights, scene.entities, scene.shaders, lightMatrices);
    assert lightMatrices[..n] == BiasedMatrices(lights);
    var pass := RenderPass(scene, f.skybox, lightMatrices[..n]);
    var view := [];
    if f.renderShadowMap {
      var index := f.shadowMapViewIndex;
      view := ShadowMapViewCmds(index, lights[index].shadow.value, scene.width, scene.height);
    }
    var markers := [];
    if f.renderPointLights {
      var each := RenderMarkers(scene, false);
      markers := [BindShader(FLAT_COLOUR_SHADER)] + each;
    }
    var onScreen := pass + view + markers;
    assert onScreen == OnScreen(f, scene);
    cmds := shadow + onScreen;
  }

  class Renderer {
    /** m_defaultShader and m_defaultShaderTextureless are set: BeforeFirstRender has run. */
    var defaultShadersAssigned: bool
    var renderPointLights: bool
    var renderShadowMap: bool
    var wireframeModeEnabled: bool
    var shadowMapViewIndex: int
    var skybox: Option<string>
    /** The clear colour OpenGL held when the renderer was made. */
    const defaultClearColour: Vec4

    predicate Valid()
      reads this
    {
      shadowMapViewIndex >= 0
    }

    function CurrentFlags(): Flags
      reads this
    {
      Flags(wireframeModeEnabled, renderShadowMap, renderPointLights, shadowMapViewIndex, skybox)
    }

    /** Renderer::Renderer: every flag off, view index 0, no skybox, no
        default shaders yet. */
    constructor (clearColour: Vec4)
      ensures Valid() && defaultClearColour == clearColour
      ensures !defaultShadersAssigned && !renderPointLights && !renderShadowMap && !wireframeModeEnabled
      ensures shadowMapViewIndex == 0 && skybox == None
    {
      defaultClearColour := clearColour;
      defaultShadersAssigned := false;
      renderPointLights, renderShadowMap, wireframeModeEnabled := false, false, false;
      shadowMapViewIndex := 0;
      skybox := None;
    }

    method SetSkybox(s: Option<string>)
      modifies this
      ensures CurrentFlags() == old(CurrentFlags()).(skybox := s)
      ensures defaultShadersAssigned == old(defaultShadersAssigned)
    {
      skybox := s;
    }

    /** Renderer::UpdateAmbientLight: writes both default shaders once they
        exist, and nothing before. */
    method UpdateAmbientLight(ambient: Vec3) returns (cmds: seq<Cmd>)
      ensures defaultShadersAssigned ==>
        cmds == [SetUniform(DEFAULT_SHADER_NAME_TEXTURE, "globalAmbientLight", Vec3Value(ambient)),
                 SetUniform(DEFAULT_SHADER_NAME_TEXTURELESS, "globalAmbientLight", Vec3Value(ambient))]
      ensures !defaultShadersAssigned ==> cmds == []
    {
      if defaultShadersAssigned {
        cmds := [SetUniform(DEFAULT_SHADER_NAME_TEXTURE, "globalAmbientLight", Vec3Value(ambient)),
                 SetUniform(DEFAULT_SHADER_NAME_TEXTURELESS, "globalAmbientLight", Vec3Value(ambient))];
      } else {
        cmds := [];
      }
    }

    /** Renderer::ToggleRenderShadowMapView: flips that flag only. */
    method ToggleRenderShadowMapView()
      modifies this
      ensures CurrentFlags() == old(CurrentFlags()).(renderShadowMap := !old(renderShadowMap))
      ensures defaultShadersAssigned == old(defaultShadersAssigned)
    {
      renderShadowMap := !renderShadowMap;
    }

    /** Renderer::ToggleWireframeRendering: flips that flag only, switching
        to lines on a black background or back to filled polygons on the
        clear colour saved at construction. */
    method ToggleWireframeRendering() returns (cmds: seq<Cmd>)
      modifies this
      ensures CurrentFlags() == old(CurrentFlags()).(wireframe := !old(wireframeModeEnabled))
      ensures defaultShadersAssigned == old(defaultShadersAssigned)
      ensures cmds == WireframeToggleCmds(wireframeModeEnabled, defaultClearColour)
    {
      wireframeModeEnabled := !wireframeModeEnabled;
      if wireframeModeEnabled {
        cmds := [SetPolygonMode(true), SetClearColour(Vec4(WIREFRAME_CLEAR_COLOUR.x, WIREFRAME_CLEAR_COLOUR.y, WIREFRAME_CLEAR_COLOUR.z, 1.0))];
      } else {
        cmds := [SetPolygonMode(false), SetClearColour(defaultClearColour)];
      }
    }

    /** Renderer::NextShadowMapView; with no lights the modulo is undefined. */
    method NextShadowMapView(lightCount: int)
      requires Valid() && lightCount > 0
      modifies this
      ensures Valid() && shadowMapViewIndex == NextIndex(old(shadowMapViewIndex), lightCount)
      ensures 0 <= shadowMapViewIndex < lightCount
      ensures CurrentFlags() == old(CurrentFlags()).(shadowMapViewIndex := shadowMapViewIndex)
      ensures defaultShadersAssigned == old(defaultShadersAssigned)
    {
      shadowMapViewIndex := (shadowMapViewIndex + 1) % lightCount;
    }

    /** Renderer::BeforeFirstRender, given the names of the registered
        shaders, the engine's point-light list length, its two light
        counters and its light count. `ok` is false when one of the
        "debug-quad", "phong" and "phong-notexture" lookups fails its
        assertion; no uniform has been written then. */
    method BeforeFirstRender(shaders: set<string>, ambient: Vec3, numPointLights: int, pointLightCount: int,
                             dirLightCount: int, lightCount: nat) returns (ok: bool, cmds: seq<Cmd>)
      requires Valid()
      modifies this
      ensures ok <==> (DEBUG_QUAD_SHADER in shaders && DEFAULT_SHADER_NAME_TEXTURE in shaders &&
                       DEFAULT_SHADER_NAME_TEXTURELESS in shaders)
      ensures Valid() && renderPointLights == (numPointLights > 0)
      ensures CurrentFlags() == old(CurrentFlags()).(renderPointLights := numPointLights > 0)
      ensures defaultShadersAssigned == (ok || old(defaultShadersAssigned))
      ensures ok ==> cmds == BeforeFirstRenderCmds(ambient, pointLightCount, dirLightCount, lightCount)
      ensures !ok ==> cmds == if DEBUG_QUAD_SHADER in shaders then DebugQuadInit() else []
    {
      renderPointLights := numPointLights > 0;
      cmds := [];
      if DEBUG_QUAD_SHADER !in shaders {
        return false, [];
      }
      cmds := [SetUniform(DEBUG_QUAD_SHADER, "scale", Mat4Value(ScaleBy(Identity, Vec3(DEBUG_QUAD_WIDTH, DEBUG_QUAD_HEIGHT, 0.0)))),
               SetUniform(DEBUG_QUAD_SHADER, "translation", Mat4Value(Translate(Identity, Vec3(DEBUG_QUAD_POS_X, DEBUG_QUAD_POS_Y, 0.0))))];
      assert cmds == DebugQuadInit();
      if DEFAULT_SHADER_NAME_TEXTURE !in shaders || DEFAULT_SHADER_NAME_TEXTURELESS !in shaders {
        return false, cmds;
      }
      defaultShadersAssigned := true;
      cmds := cmds + [SetUniform(DEFAULT_SHADER_NAME_TEXTURE, "globalAmbientLight", Vec3Value(ambient)),
               SetUniform(DEFAULT_SHADER_NAME_TEXTURELESS, "globalAmbientLight", Vec3Value(ambient))];
      cmds := cmds + [SetUniform(DEFAULT_SHADER_NAME_TEXTURE, "dirLightCount", IntValue(dirLightCount)),
                      SetUniform(DEFAULT_SHADER_NAME_TEXTURE, "pointLightCount", IntValue(pointLightCount)),
                      SetUniform(DEFAULT_SHADER_NAME_TEXTURELESS, "dirLightCount", IntValue(dirLightCount)),
                      SetUniform(DEFAULT_SHADER_NAME_TEXTURELESS, "pointLightCount", IntValue(pointLightCount))];
      assert cmds == DebugQuadInit() + DefaultShaderUniforms(ambient, pointLightCount, dirLightCount);
      ghost var start := cmds;
      var i := 0;
      while i < lightCount
        invariant 0 <= i <= lightCount && cmds == start + ShadowMapSlots(i)
      {
        cmds := cmds + [SetUniform(DEFAULT_SHADER_NAME_TEXTURE, Indexed("shadowMaps", i, ""), IntValue(i + 1))];
        cmds := cmds + [SetUniform(DEFAULT_SHADER_NAME_TEXTURELESS, Indexed("shadowMaps", i, ""), IntValue(i + 1))];
        i := i + 1;
      }
      ok := true;
    }

    /** The light loop of Renderer::Render: each active light's uniforms go
        to the textured and then to the untextured default shader, with the
        light's position in the array as its shadow index. */
    method SetLightUniforms(lights: seq<LightState>) returns (lightUniforms: seq<Cmd>)
      ensures lightUniforms == LightUniforms(lights)
    {
      var n := |lights|;
      lightUniforms := [];
      var i := 0;
      while i < n
        invariant 0 <= i <= n && lightUniforms == LightUniforms(lights[..i])
      {
        LightUniformsStep(lights, i);
        var block := SetUniforms(lights[i], DEFAULT_SHADER_NAME_TEXTURE, i);
        block := block + SetUniforms(lights[i], DEFAULT_SHADER_NAME_TEXTURELESS, i);
        lightUniforms := lightUniforms + block;
        i := i + 1;
      }
      assert lights[..i] == lights;
    }

    /** Renderer::Render: the frame's commands, issued in order. */
    method Render(scene: Scene) returns (cmds: seq<Cmd>)
      requires defaultShadersAssigned && Renderable(CurrentFlags(), scene)
      ensures cmds == Frame(CurrentFlags(), scene)
    {
      var lights := scene.lights;
      var lightUniforms := SetLightUniforms(lights);
      cmds := [SetUniform(DEFAULT_SHADER_NAME_TEXTURE, "eyePositionWorld", Vec3Value(scene.eyePosition)),
               SetUniform(DEFAULT_SHADER_NAME_TEXTURELESS, "eyePositionWorld", Vec3Value(scene.eyePosition))]
        + lightUniforms;

      if wireframeModeEnabled {
        var wire := RenderWireframeMode(scene);
        cmds := cmds + wire;
        return;
      }

      var shaded := RenderShaded(CurrentFlags(), scene);
      cmds := cmds + shaded;
    }
  }

  // ---------------------------------------------------------------- properties of a frame

  /** A shadow pass draws every entity once, in entity order, with the
      light matrix times the entity's model matrix, between enabling and
      disabling the polygon offset. */
  lemma {:induction false} ShadowDrawsAt(lightMatrix: Mat4, entities: seq<EntityState>)
    ensures |ShadowDraws(lightMatrix, entities)| == 2 * |entities|
    ensures forall i :: 0 <= i < |entities| ==>
      ShadowDraws(lightMatrix, entities)[2 * i] == SetUniform(SHADOW_MAP_SHADER, "lightMatrix", Mat4Value(Mul(lightMatrix, entities[i].model))) &&
      ShadowDraws(lightMatrix, entities)[2 * i + 1] == DrawMesh(entities[i].mesh)
    decreases |entities|
  {
    if |entities| > 0 {
      var n := |entities| - 1;
      ShadowDrawsAt(lightMatrix, entities[..n]);
      forall i | 0 <= i < n
        ensures entities[..n][i] == entities[i]
      {
      }
    }
  }

  /** The draws of a shadow pass are uniform writes to the shadow-map
      shader and mesh draws, nothing else. */
  lemma {:induction false} ShadowDrawsKinds(lightMatrix: Mat4, entities: seq<EntityState>)
    ensures forall k :: 0 <= k < |ShadowDraws(lightMatrix, entities)| ==>
      ShadowDraws(lightMatrix, entities)[k].DrawMesh? ||
      (ShadowDraws(lightMatrix, entities)[k].SetUniform? && ShadowDraws(lightMatrix, entities)[k].shader == SHADOW_MAP_SHADER)
    decreases |entities|
  {
    if |entities| > 0 {
      ShadowDrawsKinds(lightMatrix, entities[..|entities| - 1]);
    }
  }

  /** A shadow pass enables the polygon offset first and disables it last,
      and touches it nowhere in between. */
  lemma ShadowPassShape(lightMatrix: Mat4, entities: seq<EntityState>)
    ensures var r := ShadowPassCmds(lightMatrix, entities);
      |r| == 2 * |entities| + 4 &&
      r[0] == EnablePolygonOffset(POLYGON_OFFSET_FACTOR, POLYGON_OFFSET_UNITS) && r[|r| - 1] == DisablePolygonOffset &&
      (forall k :: 0 < k < |r| - 1 ==> !r[k].EnablePolygonOffset? && !r[k].DisablePolygonOffset? && !r[k].WriteShadowMap?)
  {
    ShadowDrawsAt(lightMatrix, entities);
    ShadowDrawsKinds(lightMatrix, entities);
  }

  /** The shadow-map indices written, in the order they are written. */
  function WrittenMaps(cmds: seq<Cmd>): seq<int>
    decreases |cmds|
  {
    if |cmds| == 0 then []
    else
      var c := cmds[|cmds| - 1];
      WrittenMaps(cmds[..|cmds| - 1]) + if c.WriteShadowMap? then [c.index] else []
  }

  lemma {:induction false} WrittenMapsAppend(a: seq<Cmd>, b: seq<Cmd>)
    ensures WrittenMaps(a + b) == WrittenMaps(a) + WrittenMaps(b)
    decreases |b|
  {
    if |b| == 0 {
      assert a + b == a;
    } else {
      assert (a + b)[..|a + b| - 1] == a + b[..|b| - 1];
      WrittenMapsAppend(a, b[..|b| - 1]);
    }
  }

  lemma {:induction false} WrittenMapsNone(cmds: seq<Cmd>)
    requires forall k :: 0 <= k < |cmds| ==> !cmds[k].WriteShadowMap?
    ensures WrittenMaps(cmds) == []
    decreases |cmds|
  {
    if |cmds| > 0 {
      WrittenMapsNone(cmds[..|cmds| - 1]);
    }
  }

  /** The indices of the lights that have shadow data, ascending. */
  function ShadowedIndices(lights: seq<LightState>): seq<int>
    decreases |lights|
  {
    if |lights| == 0 then []
    else
      var n := |lights| - 1;
      ShadowedIndices(lights[..n]) + if lights[n].shadow.Some? then [n] else []
  }

  lemma {:induction false} ShadowedIndicesMeaning(lights: seq<LightState>)
    ensures forall i, j :: 0 <= i < j < |ShadowedIndices(lights)| ==> ShadowedIndices(lights)[i] < ShadowedIndices(lights)[j]
    ensures forall i :: i in ShadowedIndices(lights) <==> 0 <= i < |lights| && lights[i].shadow.Some?
    decreases |lights|
  {
    if |lights| > 0 {
      var n := |lights| - 1;
      var init := lights[..n];
      ShadowedIndicesMeaning(init);
      var a := ShadowedIndices(init);
      assert forall i :: 0 <= i < n ==> init[i] == lights[i];
      assert forall k :: 0 <= k < |a| ==> a[k] in a;
      assert forall k :: 0 <= k < |a| ==> a[k] < n;
    }
  }

  /** One light's part of the shadow loop writes its map, and only when it
      has shadow data. */
  lemma LightShadowWrites(i: int, l: LightState, entities: seq<EntityState>)
    ensures WrittenMaps(LightShadowCmds(i, l, entities)) == if l.shadow.Some? then [i] else []
  {
    if l.shadow.Some? {
      var pass := ShadowPassCmds(LightMatrix(l.shadow.value), entities);
      ShadowPassShape(LightMatrix(l.shadow.value), entities);
      WrittenMapsNone(pass);
      WrittenMapsAppend([WriteShadowMap(i)], pass);
      WrittenMapsAppend([WriteShadowMap(i)] + pass, [ReadShadowMap(i, START_TEXTURE_SLOT + i)]);
      assert WrittenMaps([WriteShadowMap(i)]) == [i];
      assert WrittenMaps([ReadShadowMap(i, START_TEXTURE_SLOT + i)]) == [];
    }
  }

  /** The shadow passes run for exactly the lights with shadow data, once
      each, in ascending light index. */
  lemma {:induction false} ShadowPassesInLightOrder(lights: seq<LightState>, entities: seq<EntityState>)
    ensures WrittenMaps(ShadowPhase(lights, entities)) == ShadowedIndices(lights)
    decreases |lights|
  {
    if |lights| > 0 {
      var n := |lights| - 1;
      ShadowPassesInLightOrder(lights[..n], entities);
      WrittenMapsAppend(ShadowPhase(lights[..n], entities), LightShadowCmds(n, lights[n], entities));
      LightShadowWrites(n, lights[n], entities);
    }
  }

  // ---------------------------------------------------------------- order of the passes

  /** A command only a shadow pass issues. */
  predicate ShadowWork(c: Cmd) {
    c.WriteShadowMap? || c.EnablePolygonOffset? || c.DisablePolygonOffset?
  }

  /** Binding the window's framebuffer: the start of on-screen drawing. */
  predicate ScreenWork(c: Cmd) {
    c.BindDefaultFramebuffer?
  }

  /** A command of the shaded pass, the shadow-map view or the shadow passes,
      none of which wireframe mode issues. */
  predicate ShadedOnlyWork(c: Cmd) {
    ShadowWork(c) || ScreenWork(c) || c.ReadShadowMap? || c.DrawDebugQuad? || c.DrawSkybox? || c.ActivateTextureUnit?
  }

  /** A uniform write or a mesh draw. */
  predicate PlainDraw(c: Cmd) {
    c.SetUniform? || c.DrawMesh?
  }

  /** Plain draws are none of the other kinds. */
  lemma PlainAvoids(cmds: seq<Cmd>)
    requires forall k :: 0 <= k < |cmds| ==> PlainDraw(cmds[k])
    ensures Avoids(cmds, ShadedOnlyWork) && Avoids(cmds, ShadowWork) && Avoids(cmds, ScreenWork)
  {
  }

  lemma {:induction false} LightUniformsArePlain(lights: seq<LightState>)
    ensures forall k :: 0 <= k < |LightUniforms(lights)| ==> PlainDraw(LightUniforms(lights)[k])
    decreases |lights|
  {
    if |lights| > 0 {
      LightUniformsArePlain(lights[..|lights| - 1]);
    }
  }

  lemma {:induction false} WireframeDrawsArePlain(entities: seq<EntityState>, projection: Mat4, view: Mat4)
    ensures forall k :: 0 <= k < |WireframeDraws(entities, projection, view)| ==> PlainDraw(WireframeDraws(entities, projection, view)[k])
    decreases |entities|
  {
    if |entities| > 0 {
      WireframeDrawsArePlain(entities[..|entities| - 1], projection, view);
    }
  }

  lemma {:induction false} MarkersArePlain(pointLights: seq<LightState>, scene: Scene, wireframe: bool)
    requires AllPoints(pointLights) && scene.lightMesh.Some?
    ensures forall k :: 0 <= k < |MarkersOf(pointLights, scene, wireframe)| ==> PlainDraw(MarkersOf(pointLights, scene, wireframe)[k])
    decreases |pointLights|
  {
    if |pointLights| > 0 {
      var n := |pointLights| - 1;
      assert AllPoints(pointLights[..n]);
      MarkersArePlain(pointLights[..n], scene, wireframe);
    }
  }

  lemma ShadowPassOffscreen(lightMatrix: Mat4, entities: seq<EntityState>)
    ensures Avoids(ShadowPassCmds(lightMatrix, entities), ScreenWork)
  {
    var d := ShadowDraws(lightMatrix, entities);
    ShadowDrawsKinds(lightMatrix, entities);
    var head := [EnablePolygonOffset(POLYGON_OFFSET_FACTOR, POLYGON_OFFSET_UNITS), ClearColourAndDepth, BindShader(SHADOW_MAP_SHADER)];
    assert Avoids(head, ScreenWork) && Avoids(d, ScreenWork) && Avoids([DisablePolygonOffset], ScreenWork);
    AvoidsAppend(head, d, ScreenWork);
    AvoidsAppend(head + d, [DisablePolygonOffset], ScreenWork);
  }

  lemma LightShadowOffscreen(i: int, l: LightState, entities: seq<EntityState>)
    ensures Avoids(LightShadowCmds(i, l, entities), ScreenWork)
  {
    if l.shadow.Some? {
      var pass := ShadowPassCmds(LightMatrix(l.shadow.value), entities);
      ShadowPassOffscreen(LightMatrix(l.shadow.value), entities);
      assert Avoids([WriteShadowMap(i)], ScreenWork) && Avoids([ReadShadowMap(i, START_TEXTURE_SLOT + i)], ScreenWork);
      AvoidsAppend([WriteShadowMap(i)], pass, ScreenWork);
      AvoidsAppend([WriteShadowMap(i)] + pass, [ReadShadowMap(i, START_TEXTURE_SLOT + i)], ScreenWork);
    }
  }

  lemma {:induction false} ShadowPhaseOffscreen(lights: seq<LightState>, entities: seq<EntityState>)
    ensures Avoids(ShadowPhase(lights, entities), ScreenWork)
    decreases |lights|
  {
    if |lights| > 0 {
      var n := |lights| - 1;
      ShadowPhaseOffscreen(lights[..n], entities);
      LightShadowOffscreen(n, lights[n], entities);
      AvoidsAppend(ShadowPhase(lights[..n], entities), LightShadowCmds(n, lights[n], entities), ScreenWork);
    }
  }

  lemma {:induction false} LightWritesArePlain(shader: string, lights: seq<LightState>, matrices: seq<Mat4>, model: Mat4, n: nat)
    requires n <= |lights| && n <= |matrices| && AllShadowed(lights)
    ensures forall k :: 0 <= k < |LightWrites(shader, lights, matrices, model, n)| ==>
      PlainDraw(LightWrites(shader, lights, matrices, model, n)[k])
    decreases n
  {
    if n > 0 {
      LightWritesArePlain(shader, lights, matrices, model, n - 1);
    }
  }

  lemma BindNoShadowWork(m: MaterialState, shader: string)
    requires Bindable(m)
    ensures Avoids(Materials.Bind(m, shader), ShadowWork)
  {
    var b := Materials.Bind(m, shader);
    var w := MaterialWrites(m, shader);
    assert b == b[..|b| - 4] + w;
    assert Avoids(b[..|b| - 4], ShadowWork);
    assert Avoids(w, ShadowWork);
    AvoidsAppend(b[..|b| - 4], w, ShadowWork);
  }

  lemma EntityRenderNoShadowWork(e: EntityState, lights: seq<LightState>, matrices: seq<Mat4>, projection: Mat4, view: Mat4)
    requires Drawable(e) && |lights| <= |matrices| && AllShadowed(lights)
    ensures Avoids(EntityRenderCmds(e, lights, matrices, projection, view), ShadowWork)
  {
    var s := e.shader.value;
    var b := Materials.Bind(e.material, s);
    var w := LightWrites(s, lights, matrices, e.model, |lights|);
    var tail := [SetUniform(s, MODEL_TO_WORLD, Mat4Value(e.model)),
                 SetUniform(s, MODEL_VIEW_PROJ, Mat4Value(Mul(Mul(projection, view), e.model))),
                 DrawMesh(e.mesh)];
    BindNoShadowWork(e.material, s);
    LightWritesArePlain(s, lights, matrices, e.model, |lights|);
    PlainAvoids(w);
    assert Avoids([BindShader(s)], ShadowWork) && Avoids(tail, ShadowWork);
    AvoidsAppend([BindShader(s)], b, ShadowWork);
    AvoidsAppend([BindShader(s)] + b, w, ShadowWork);
    AvoidsAppend([BindShader(s)] + b + w, tail, ShadowWork);
  }

  lemma {:induction false} EntityRendersNoShadowWork(entities: seq<EntityState>, lights: seq<LightState>, matrices: seq<Mat4>,
                                                     projection: Mat4, view: Mat4)
    requires AllDrawable(entities) && |lights| <= |matrices| && AllShadowed(lights)
    ensures Avoids(EntityRenders(entities, lights, matrices, projection, view), ShadowWork)
    decreases |entities|
  {
    if |entities| > 0 {
      var n := |entities| - 1;
      assert AllDrawable(entities[..n]);
      EntityRendersNoShadowWork(entities[..n], lights, matrices, projection, view);
      EntityRenderNoShadowWork(entities[n], lights, matrices, projection, view);
      AvoidsAppend(EntityRenders(entities[..n], lights, matrices, projection, view),
                   EntityRenderCmds(entities[n], lights, matrices, projection, view), ShadowWork);
    }
  }

  lemma FrameUniformsArePlain(scene: Scene)
    ensures forall k :: 0 <= k < |FrameUniforms(scene)| ==> PlainDraw(FrameUniforms(scene)[k])
  {
    var e, l := EyeUniforms(scene.eyePosition), LightUniforms(scene.lights);
    LightUniformsArePlain(scene.lights);
    assert |e| == 2 && PlainDraw(e[0]) && PlainDraw(e[1]);
    PlainAppend(e, l);
  }

  lemma PlainAppend(a: seq<Cmd>, b: seq<Cmd>)
    requires forall k :: 0 <= k < |a| ==> PlainDraw(a[k])
    requires forall k :: 0 <= k < |b| ==> PlainDraw(b[k])
    ensures forall k :: 0 <= k < |a + b| ==> PlainDraw((a + b)[k])
  {
  }

  lemma RenderPassHeadNoShadowWork(scene: Scene, skybox: Option<string>)
    ensures Avoids(RenderPassHead(scene, skybox), ShadowWork)
  {
  }

  lemma RenderPassNoShadowWork(scene: Scene, skybox: Option<string>, matrices: seq<Mat4>)
    requires AllDrawable(scene.entities) && |scene.lights| <= |matrices| && AllShadowed(scene.lights)
    ensures Avoids(RenderPassCmds(scene, skybox, matrices), ShadowWork)
  {
    var head := RenderPassHead(scene, skybox);
    var draws := EntityRenders(scene.entities, scene.lights, matrices, scene.projection, scene.view);
    assert Avoids(head + draws, ShadowWork) by {
      RenderPassHeadNoShadowWork(scene, skybox);
      EntityRendersNoShadowWork(scene.entities, scene.lights, matrices, scene.projection, scene.view);
      AvoidsAppend(head, draws, ShadowWork);
    }
  }

  lemma PointLightsNoShadowWork(scene: Scene)
    requires MarkersDrawable(scene)
    ensures Avoids(PointLightsCmds(scene), ShadowWork)
  {
    MarkersArePlain(scene.pointLights, scene, false);
    PlainAvoids(Markers(scene, false));
    assert Avoids([BindShader(FLAT_COLOUR_SHADER)], ShadowWork);
    AvoidsAppend([BindShader(FLAT_COLOUR_SHADER)], Markers(scene, false), ShadowWork);
  }

  lemma OnScreenNoShadowWork(f: Flags, scene: Scene)
    requires Renderable(f, scene) && !f.wireframe
    ensures Avoids(OnScreen(f, scene), ShadowWork)
  {
    var pass := RenderPassCmds(scene, f.skybox, BiasedMatrices(scene.lights));
    var view := if f.renderShadowMap
      then ShadowMapViewCmds(f.shadowMapViewIndex, scene.lights[f.shadowMapViewIndex].shadow.value, scene.width, scene.height)
      else [];
    var points := if f.renderPointLights then PointLightsCmds(scene) else [];
    RenderPassNoShadowWork(scene, f.skybox, BiasedMatrices(scene.lights));
    if f.renderPointLights {
      PointLightsNoShadowWork(scene);
    }
    assert Avoids(view, ShadowWork);
    AvoidsAppend(pass, view, ShadowWork);
    AvoidsAppend(pass + view, points, ShadowWork);
  }

  lemma OffScreenPrefix(scene: Scene)
    ensures Avoids(FrameUniforms(scene) + ShadowPhase(scene.lights, scene.entities), ScreenWork)
  {
    FrameUniformsArePlain(scene);
    PlainAvoids(FrameUniforms(scene));
    ShadowPhaseOffscreen(scene.lights, scene.entities);
    AvoidsAppend(FrameUniforms(scene), ShadowPhase(scene.lights, scene.entities), ScreenWork);
  }

  lemma FrameSplit(f: Flags, scene: Scene)
    requires Renderable(f, scene) && !f.wireframe
    ensures Frame(f, scene) == (FrameUniforms(scene) + ShadowPhase(scene.lights, scene.entities)) + OnScreen(f, scene)
  {
    var u, p, o := FrameUniforms(scene), ShadowPhase(scene.lights, scene.entities), OnScreen(f, scene);
    assert Frame(f, scene) == u + (p + o);
    assert u + (p + o) == (u + p) + o;
  }

  /** Every shadow map is written, and the polygon offset switched off, before
      the window's framebuffer is bound for the shaded pass: no shadow work
      follows on-screen drawing. */
  lemma ShadowPassesPrecedeShading(f: Flags, scene: Scene)
    requires Renderable(f, scene) && !f.wireframe
    ensures Precedes(Frame(f, scene), ShadowWork, ScreenWork)
  {
    var prefix := FrameUniforms(scene) + ShadowPhase(scene.lights, scene.entities);
    assert Avoids(prefix, ScreenWork) by {
      OffScreenPrefix(scene);
    }
    assert Avoids(OnScreen(f, scene), ShadowWork) by {
      OnScreenNoShadowWork(f, scene);
    }
    PrecedesAppend(prefix, OnScreen(f, scene), ShadowWork, ScreenWork);
    FrameSplit(f, scene);
  }

  lemma WireframeCmdsArePlainAfterHead(scene: Scene)
    requires MarkersDrawable(scene)
    ensures Avoids(WireframeCmds(scene), ShadedOnlyWork)
  {
    var draws := WireframeDraws(scene.entities, scene.projection, scene.view);
    var head := [ClearColourAndDepth, BindShader(FLAT_COLOUR_SHADER),
                 SetUniform(FLAT_COLOUR_SHADER, "diffuseColour", Vec3Value(WIREFRAME_COLOUR))];
    var markers := Markers(scene, true);
    WireframeDrawsArePlain(scene.entities, scene.projection, scene.view);
    PlainAvoids(draws);
    MarkersArePlain(scene.pointLights, scene, true);
    PlainAvoids(markers);
    assert Avoids(head, ShadedOnlyWork);
    AvoidsAppend(head, draws, ShadedOnlyWork);
    AvoidsAppend(head + draws, markers, ShadedOnlyWork);
  }

  lemma LightUniformsStep(lights: seq<LightState>, i: nat)
    requires i < |lights|
    ensures LightUniforms(lights[..i + 1]) == LightUniforms(lights[..i]) + LightBlock(lights[i], i)
  {
    assert lights[..i + 1][..i] == lights[..i];
  }

  /** The light uniforms of a shorter prefix of the lights start those of a longer one. */
  lemma {:induction false} LightUniformsGrow(lights: seq<LightState>, i: nat, j: nat)
    requires i <= j <= |lights|
    ensures LightUniforms(lights[..i]) <= LightUniforms(lights[..j])
    decreases j
  {
    if i < j {
      LightUniformsGrow(lights, i, j - 1);
      LightUniformsGrowStep(lights, i, j);
    }
  }

  lemma LightUniformsGrowStep(lights: seq<LightState>, i: nat, j: nat)
    requires i < j <= |lights| && LightUniforms(lights[..i]) <= LightUniforms(lights[..j - 1])
    ensures LightUniforms(lights[..i]) <= LightUniforms(lights[..j])
  {
    var p, x, y, z := LightUniforms(lights[..i]), LightUniforms(lights[..j - 1]), LightBlock(lights[j - 1], j - 1),
                      LightUniforms(lights[..j]);
    assert z == x + y by { LightUniformsStep(lights, j - 1); }
    PrefixOfLonger(p, x, y);
  }

  /** Render writes every active light's uniforms into both default shaders,
      light i with shadow index i, in light order, before it looks at the
      wireframe flag: in both modes the frame starts with them. */
  lemma EveryLightUniformsFirst(f: Flags, scene: Scene, i: nat)
    requires Renderable(f, scene) && i < |scene.lights|
    ensures FrameUniforms(scene) <= Frame(f, scene)
    ensures LightUniforms(scene.lights[..i]) + LightBlock(scene.lights[i], i) <= LightUniforms(scene.lights)
  {
    var lights := scene.lights;
    assert LightUniforms(lights[..i]) + LightBlock(lights[i], i) <= LightUniforms(lights) by {
      assert LightUniforms(lights[..i + 1]) <= LightUniforms(lights[..|lights|]) by {
        LightUniformsGrow(lights, i + 1, |lights|);
      }
      LightUniformsStep(lights, i);
      assert lights[..|lights|] == lights;
    }
  }

  /** Wireframe mode leaves after the light uniforms (the frame is
      FrameUniforms followed by WireframeCmds): no shadow pass, no shaded
      pass, no shadow-map view and no texture binding. */
  lemma WireframeIsAnEarlyExit(f: Flags, scene: Scene)
    requires Renderable(f, scene) && f.wireframe
    ensures Avoids(Frame(f, scene), ShadedOnlyWork)
  {
    FrameUniformsArePlain(scene);
    PlainAvoids(FrameUniforms(scene));
    WireframeCmdsArePlainAfterHead(scene);
    AvoidsAppend(FrameUniforms(scene), WireframeCmds(scene), ShadedOnlyWork);
  }

  // ---------------------------------------------------------------- uniform values of the shaded pass

  /** The two per-light writes for light i leave its bias and its light
      matrix times the model matrix. */
  lemma LightPairUniforms(shader: string, i: int, bias: real, m: Mat4)
    ensures Uniforms([SetUniform(shader, Indexed("shadowBiases", i, ""), FloatValue(bias)),
                      SetUniform(shader, Indexed("lightMatrices", i, ""), Mat4Value(m))], shader) ==
      map[Indexed("shadowBiases", i, "") := FloatValue(bias), Indexed("lightMatrices", i, "") := Mat4Value(m)]
  {
    var a := SetUniform(shader, Indexed("shadowBiases", i, ""), FloatValue(bias));
    UniformsSnoc([], a.name, a.value, shader);
    assert [] + [a] == [a];
    UniformsSnoc([a], Indexed("lightMatrices", i, ""), Mat4Value(m), shader);
  }

  /** The first letters of the per-light uniform names. */
  lemma IndexedHeads(i: int)
    ensures |Indexed("shadowBiases", i, "")| > 0 && Indexed("shadowBiases", i, "")[0] == 's'
    ensures |Indexed("lightMatrices", i, "")| > 0 && Indexed("lightMatrices", i, "")[0] == 'l'
  {
  }

  /** The per-light uniform names of different lights differ. */
  lemma IndexedApart(i: int, k: int)
    requires i != k
    ensures Indexed("shadowBiases", i, "") != Indexed("shadowBiases", k, "")
    ensures Indexed("lightMatrices", i, "") != Indexed("lightMatrices", k, "")
  {
    IndexedInjective("shadowBiases", i, "", k, "");
    IndexedInjective("lightMatrices", i, "", k, "");
  }

  lemma NamesOfEarlierLight(i: int, k: int)
    requires i != k
    ensures Indexed("shadowBiases", i, "") != Indexed("shadowBiases", k, "")
    ensures Indexed("shadowBiases", i, "") != Indexed("lightMatrices", k, "")
    ensures Indexed("lightMatrices", i, "") != Indexed("shadowBiases", k, "")
    ensures Indexed("lightMatrices", i, "") != Indexed("lightMatrices", k, "")
  {
    IndexedApart(i, k);
    IndexedHeads(i);
    IndexedHeads(k);
  }

  /** A lookup in a map after two updates. */
  lemma LookupPastTwo<K, V>(m: map<K, V>, a: K, va: V, b: K, vb: V, key: K)
    requires a != b
    ensures key in m[a := va][b := vb] <==> key == a || key == b || key in m
    ensures key == a ==> m[a := va][b := vb][key] == va
    ensures key == b ==> m[a := va][b := vb][key] == vb
    ensures key != a && key != b && key in m ==> m[a := va][b := vb][key] == m[key]
  {
  }

  /** A lookup in a merge of two maps, the second one winning. */
  lemma LookupMerged<K, V>(a: map<K, V>, b: map<K, V>, key: K)
    ensures key in a + b <==> key in a || key in b
    ensures key in b ==> (a + b)[key] == b[key]
    ensures key !in b && key in a ==> (a + b)[key] == a[key]
  {
  }

  /** The uniforms the per-light writes of RenderPass leave, as a map. */
  function LightUniformMap(lights: seq<LightState>, matrices: seq<Mat4>, model: Mat4, n: nat): map<string, Value>
    requires n <= |lights| && n <= |matrices| && AllShadowed(lights)
    decreases n
  {
    if n == 0 then map[]
    else
      LightUniformMap(lights, matrices, model, n - 1)
        [Indexed("shadowBiases", n - 1, "") := FloatValue(lights[n - 1].shadow.value.shadowBias)]
        [Indexed("lightMatrices", n - 1, "") := Mat4Value(Mul(matrices[n - 1], model))]
  }

  lemma {:induction false} LightWritesLeave(shader: string, lights: seq<LightState>, matrices: seq<Mat4>, model: Mat4, n: nat)
    requires n <= |lights| && n <= |matrices| && AllShadowed(lights)
    ensures Uniforms(LightWrites(shader, lights, matrices, model, n), shader) == LightUniformMap(lights, matrices, model, n)
    decreases n
  {
    if n > 0 {
      var k := n - 1;
      var earlier := LightWrites(shader, lights, matrices, model, k);
      var sb, lm := Indexed("shadowBiases", k, ""), Indexed("lightMatrices", k, "");
      var bias, m := FloatValue(lights[k].shadow.value.shadowBias), Mat4Value(Mul(matrices[k], model));
      LightWritesLeave(shader, lights, matrices, model, k);
      UniformsSnoc(earlier, sb, bias, shader);
      UniformsSnoc(earlier + [SetUniform(shader, sb, bias)], lm, m, shader);
      assert LightWrites(shader, lights, matrices, model, n) == earlier + [SetUniform(shader, sb, bias)] + [SetUniform(shader, lm, m)];
    }
  }

  /** In that map, shadowBiases[i] and lightMatrices[i] hold light i's bias
      and matrix for every i < n, and every name is one of theirs. */
  lemma {:induction false} LightUniformMapMeaning(lights: seq<LightState>, matrices: seq<Mat4>, model: Mat4, n: nat)
    requires n <= |lights| && n <= |matrices| && AllShadowed(lights)
    ensures var u := LightUniformMap(lights, matrices, model, n);
      (forall i :: 0 <= i < n ==>
        Indexed("shadowBiases", i, "") in u && u[Indexed("shadowBiases", i, "")] == FloatValue(lights[i].shadow.value.shadowBias) &&
        Indexed("lightMatrices", i, "") in u && u[Indexed("lightMatrices", i, "")] == Mat4Value(Mul(matrices[i], model))) &&
      (forall name :: name in u ==> |name| > 0 && (name[0] == 's' || name[0] == 'l'))
    decreases n
  {
    if n > 0 {
      var k := n - 1;
      var earlier := LightUniformMap(lights, matrices, model, k);
      var u := LightUniformMap(lights, matrices, model, n);
      var sb, lm := Indexed("shadowBiases", k, ""), Indexed("lightMatrices", k, "");
      var vb, vm := FloatValue(lights[k].shadow.value.shadowBias), Mat4Value(Mul(matrices[k], model));
      assert u == earlier[sb := vb][lm := vm];
      LightUniformMapMeaning(lights, matrices, model, k);
      IndexedHeads(k);
      forall i | 0 <= i < n
        ensures Indexed("shadowBiases", i, "") in u && u[Indexed("shadowBiases", i, "")] == FloatValue(lights[i].shadow.value.shadowBias)
        ensures Indexed("lightMatrices", i, "") in u && u[Indexed("lightMatrices", i, "")] == Mat4Value(Mul(matrices[i], model))
      {
        if i < k {
          NamesOfEarlierLight(i, k);
          LookupPastTwo(earlier, sb, vb, lm, vm, Indexed("shadowBiases", i, ""));
          LookupPastTwo(earlier, sb, vb, lm, vm, Indexed("lightMatrices", i, ""));
        } else {
          LookupPastTwo(earlier, sb, vb, lm, vm, sb);
          LookupPastTwo(earlier, sb, vb, lm, vm, lm);
        }
      }
      forall name | name in u
        ensures |name| > 0 && (name[0] == 's' || name[0] == 'l')
      {
        LookupPastTwo(earlier, sb, vb, lm, vm, name);
      }
    }
  }

  lemma LightWritesUniforms(shader: string, lights: seq<LightState>, matrices: seq<Mat4>, model: Mat4, n: nat)
    requires n <= |lights| && n <= |matrices| && AllShadowed(lights)
    ensures var u := Uniforms(LightWrites(shader, lights, matrices, model, n), shader);
      (forall i :: 0 <= i < n ==>
        Indexed("shadowBiases", i, "") in u && u[Indexed("shadowBiases", i, "")] == FloatValue(lights[i].shadow.value.shadowBias) &&
        Indexed("lightMatrices", i, "") in u && u[Indexed("lightMatrices", i, "")] == Mat4Value(Mul(matrices[i], model))) &&
      (forall name :: name in u ==> |name| > 0 && (name[0] == 's' || name[0] == 'l'))
  {
    LightWritesLeave(shader, lights, matrices, model, n);
    LightUniformMapMeaning(lights, matrices, model, n);
  }

  lemma TailNamesApart()
    ensures MODEL_TO_WORLD != MODEL_VIEW_PROJ && MODEL_TO_WORLD[0] == 'm' && MODEL_VIEW_PROJ[0] == 'm'
  {
    assert MODEL_TO_WORLD[1] == 'o' && MODEL_VIEW_PROJ[5] == 'V' && MODEL_TO_WORLD[5] == 'T';
  }

  lemma EntityTailUniforms(s: string, model: Mat4, mvp: Mat4, mesh: Mesh)
    ensures Uniforms([SetUniform(s, MODEL_TO_WORLD, Mat4Value(model)), SetUniform(s, MODEL_VIEW_PROJ, Mat4Value(mvp)),
                      DrawMesh(mesh)], s) ==
      map[][MODEL_TO_WORLD := Mat4Value(model)][MODEL_VIEW_PROJ := Mat4Value(mvp)]
  {
    var a := SetUniform(s, MODEL_TO_WORLD, Mat4Value(model));
    var b := SetUniform(s, MODEL_VIEW_PROJ, Mat4Value(mvp));
    UniformsSnoc([], a.name, a.value, s);
    assert [] + [a] == [a];
    UniformsSnoc([a], b.name, b.value, s);
    assert [a] + [b] == [a, b];
    assert [a, b, DrawMesh(mesh)][..2] == [a, b];
  }

  lemma HeadUniforms(m: MaterialState, s: string)
    requires Bindable(m)
    ensures Uniforms([BindShader(s)] + Materials.Bind(m, s), s) ==
      map["material.ambient" := Vec3Value(m.ambient), "material.diffuse" := Vec3Value(m.diffuse),
          "material.specular" := Vec3Value(m.specular), "material.shininess" := FloatValue(m.shininess)]
  {
    UniformsAppend([BindShader(s)], Materials.Bind(m, s), s);
    UniformsUntouched([BindShader(s)], s);
    BindUniforms(m, s);
  }

  /** One entity's part of RenderPass, split at the per-light writes. */
  lemma EntityRenderSplit(e: EntityState, lights: seq<LightState>, matrices: seq<Mat4>, projection: Mat4, view: Mat4)
    requires Drawable(e) && |lights| <= |matrices| && AllShadowed(lights)
    ensures var s := e.shader.value;
      Uniforms(EntityRenderCmds(e, lights, matrices, projection, view), s) ==
        Uniforms([BindShader(s)] + Materials.Bind(e.material, s), s) + Uniforms(LightWrites(s, lights, matrices, e.model, |lights|), s)
          + map[][MODEL_TO_WORLD := Mat4Value(e.model)][MODEL_VIEW_PROJ := Mat4Value(Mul(Mul(projection, view), e.model))]
  {
    var s := e.shader.value;
    var head := [BindShader(s)] + Materials.Bind(e.material, s);
    var w := LightWrites(s, lights, matrices, e.model, |lights|);
    var mvp := Mul(Mul(projection, view), e.model);
    var tail := [SetUniform(s, MODEL_TO_WORLD, Mat4Value(e.model)), SetUniform(s, MODEL_VIEW_PROJ, Mat4Value(mvp)), DrawMesh(e.mesh)];
    assert EntityRenderCmds(e, lights, matrices, projection, view) == head + w + tail;
    UniformsAppend(head, w, s);
    UniformsAppend(head + w, tail, s);
    EntityTailUniforms(s, e.model, mvp, e.mesh);
  }

  /** What one entity's part of RenderPass leaves in its shader: its model
      matrix, P * V * M, and every active light's bias and light matrix
      times its model matrix. */
  lemma EntityRenderUniforms(e: EntityState, lights: seq<LightState>, matrices: seq<Mat4>, projection: Mat4, view: Mat4)
    requires Drawable(e) && |lights| <= |matrices| && AllShadowed(lights)
    ensures var u := Uniforms(EntityRenderCmds(e, lights, matrices, projection, view), e.shader.value);
      MODEL_VIEW_PROJ in u && u[MODEL_VIEW_PROJ] == Mat4Value(Mul(Mul(projection, view), e.model)) &&
      MODEL_TO_WORLD in u && u[MODEL_TO_WORLD] == Mat4Value(e.model) &&
      (forall i :: 0 <= i < |lights| ==>
        Indexed("shadowBiases", i, "") in u && u[Indexed("shadowBiases", i, "")] == FloatValue(lights[i].shadow.value.shadowBias) &&
        Indexed("lightMatrices", i, "") in u && u[Indexed("lightMatrices", i, "")] == Mat4Value(Mul(matrices[i], e.model)))
  {
    var s := e.shader.value;
    var uh := Uniforms([BindShader(s)] + Materials.Bind(e.material, s), s);
    var uw := Uniforms(LightWrites(s, lights, matrices, e.model, |lights|), s);
    var vw, vp := Mat4Value(e.model), Mat4Value(Mul(Mul(projection, view), e.model));
    var ut := map[][MODEL_TO_WORLD := vw][MODEL_VIEW_PROJ := vp];
    var u := uh + uw + ut;
    EntityRenderSplit(e, lights, matrices, projection, view);
    TailNamesApart();
    LookupPastTwo(map[], MODEL_TO_WORLD, vw, MODEL_VIEW_PROJ, vp, MODEL_TO_WORLD);
    LookupPastTwo(map[], MODEL_TO_WORLD, vw, MODEL_VIEW_PROJ, vp, MODEL_VIEW_PROJ);
    LookupMerged(uh + uw, ut, MODEL_VIEW_PROJ);
    LookupMerged(uh + uw, ut, MODEL_TO_WORLD);
    LightWritesUniforms(s, lights, matrices, e.model, |lights|);
    forall i | 0 <= i < |lights|
      ensures Indexed("shadowBiases", i, "") in u && u[Indexed("shadowBiases", i, "")] == FloatValue(lights[i].shadow.value.shadowBias)
      ensures Indexed("lightMatrices", i, "") in u && u[Indexed("lightMatrices", i, "")] == Mat4Value(Mul(matrices[i], e.model))
    {
      var sb, lm := Indexed("shadowBiases", i, ""), Indexed("lightMatrices", i, "");
      IndexedHeads(i);
      LookupPastTwo(map[], MODEL_TO_WORLD, vw, MODEL_VIEW_PROJ, vp, sb);
      LookupPastTwo(map[], MODEL_TO_WORLD, vw, MODEL_VIEW_PROJ, vp, lm);
      LookupMerged(uh, uw, sb);
      LookupMerged(uh + uw, ut, sb);
      LookupMerged(uh, uw, lm);
      LookupMerged(uh + uw, ut, lm);
    }
  }



  lemma {:induction false} EntityBlockGrows(entities: seq<EntityState>, lights: seq<LightState>, matrices: seq<Mat4>,
                                            projection: Mat4, view: Mat4, i: nat, j: nat)
    requires AllDrawable(entities) && |lights| <= |matrices| && AllShadowed(lights) && i < j <= |entities|
    ensures AllDrawable(entities[..i]) && AllDrawable(entities[..j])
    ensures EntityRenders(entities[..i], lights, matrices, projection, view) + EntityRenderCmds(entities[i], lights, matrices, projection, view)
      <= EntityRenders(entities[..j], lights, matrices, projection, view)
    decreases j
  {
    var block := EntityRenders(entities[..i], lights, matrices, projection, view) + EntityRenderCmds(entities[i], lights, matrices, projection, view);
    var before := EntityRenders(entities[..j - 1], lights, matrices, projection, view);
    var next := EntityRenderCmds(entities[j - 1], lights, matrices, projection, view);
    assert EntityRenders(entities[..j], lights, matrices, projection, view) == before + next by {
      EntityRendersStep(entities, lights, matrices, projection, view, j - 1);
    }
    if j > i + 1 {
      assert block <= before by {
        EntityBlockGrows(entities, lights, matrices, projection, view, i, j - 1);
      }
      PrefixOfLonger(block, before, next);
    } else {
      assert block == before + next;
    }
  }

  lemma PrefixOfLonger<T>(p: seq<T>, x: seq<T>, y: seq<T>)
    requires p <= x
    ensures p <= x + y
  {
    assert (x + y)[..|p|] == x[..|p|];
  }

  /** RenderPass draws every entity, in entity order: entity i's commands
      follow those of entities 0 .. i-1 without a gap. */
  lemma EveryEntityRendered(entities: seq<EntityState>, lights: seq<LightState>, matrices: seq<Mat4>,
                            projection: Mat4, view: Mat4, i: nat)
    requires AllDrawable(entities) && |lights| <= |matrices| && AllShadowed(lights) && i < |entities|
    ensures AllDrawable(entities[..i])
    ensures EntityRenders(entities[..i], lights, matrices, projection, view) + EntityRenderCmds(entities[i], lights, matrices, projection, view)
      <= EntityRenders(entities, lights, matrices, projection, view)
  {
    EntityBlockGrows(entities, lights, matrices, projection, view, i, |entities|);
    assert entities[..|entities|] == entities;
  }

  // ---------------------------------------------------------------- the shadow-map view

  /** The shadow-map view sets nearZ and farZ only for a perspective shadow
      map, besides isOrtho. */
  lemma ShadowMapViewUniforms(index: int, s: ShadowState, width: int, height: int)
    ensures Uniforms(ShadowMapViewCmds(index, s, width, height), DEBUG_QUAD_SHADER) ==
      if s.isOrthographic then map["isOrtho" := IntValue(1)]
      else map["isOrtho" := IntValue(0), "nearZ" := FloatValue(s.nearPlane), "farZ" := FloatValue(s.farPlane)]
  {
    var ortho := SetUniform(DEBUG_QUAD_SHADER, "isOrtho", IntValue(if s.isOrthographic then 1 else 0));
    var near := SetUniform(DEBUG_QUAD_SHADER, "nearZ", FloatValue(s.nearPlane));
    var far := SetUniform(DEBUG_QUAD_SHADER, "farZ", FloatValue(s.farPlane));
    var head := [BindDefaultFramebuffer, BindDebugQuad];
    var depth := if !s.isOrthographic then [near, far] else [];
    var tail := [SetShadowCompareMode(index, false), ReadShadowMap(index, 0), DrawDebugQuad(width, height),
                 SetShadowCompareMode(index, true)];
    var ud := if s.isOrthographic then map[] else map["nearZ" := FloatValue(s.nearPlane), "farZ" := FloatValue(s.farPlane)];
    assert Uniforms(head + [ortho], DEBUG_QUAD_SHADER) == map["isOrtho" := ortho.value] by {
      UniformsUntouched(head, DEBUG_QUAD_SHADER);
      UniformsSnoc(head, ortho.name, ortho.value, DEBUG_QUAD_SHADER);
    }
    assert Uniforms(depth, DEBUG_QUAD_SHADER) == ud by {
      if !s.isOrthographic {
        UniformsSnoc([], near.name, near.value, DEBUG_QUAD_SHADER);
        assert [] + [near] == [near];
        UniformsSnoc([near], far.name, far.value, DEBUG_QUAD_SHADER);
        assert [near] + [far] == depth;
      } else {
        UniformsUntouched(depth, DEBUG_QUAD_SHADER);
      }
    }
    assert Uniforms(tail, DEBUG_QUAD_SHADER) == map[] by {
      UniformsUntouched(tail, DEBUG_QUAD_SHADER);
    }
    assert ShadowMapViewCmds(index, s, width, height) == head + [ortho] + depth + tail;
    UniformsAppend(head + [ortho], depth, DEBUG_QUAD_SHADER);
    UniformsAppend(head + [ortho] + depth, tail, DEBUG_QUAD_SHADER);
  }

  /** The shadow-map view switches the compare mode off before reading the
      map and back on as its last command. */
  lemma ShadowMapViewRestoresCompare(index: int, s: ShadowState, width: int, height: int)
    ensures var r := ShadowMapViewCmds(index, s, width, height);
      r[|r| - 1] == SetShadowCompareMode(index, true) &&
      r[|r| - 4] == SetShadowCompareMode(index, false) && r[|r| - 3] == ReadShadowMap(index, 0) &&
      forall k :: 0 <= k < |r| - 4 ==> !r[k].SetShadowCompareMode? && !r[k].ReadShadowMap?
  {
  }

  // ---------------------------------------------------------------- BeforeFirstRender

  predicate IsDefaultShader(shader: string) {
    shader == DEFAULT_SHADER_NAME_TEXTURE || shader == DEFAULT_SHADER_NAME_TEXTURELESS
  }

  /** The shadowMaps uniforms BeforeFirstRender leaves, as a map. */
  function SlotMap(n: nat): map<string, Value>
    decreases n
  {
    if n == 0 then map[] else SlotMap(n - 1)[Indexed("shadowMaps", n - 1, "") := IntValue(n)]
  }

  lemma {:induction false} ShadowMapSlotsLeave(n: nat, shader: string)
    requires IsDefaultShader(shader)
    ensures Uniforms(ShadowMapSlots(n), shader) == SlotMap(n)
    decreases n
  {
    if n > 0 {
      var name := Indexed("shadowMaps", n - 1, "");
      var a := SetUniform(DEFAULT_SHADER_NAME_TEXTURE, name, IntValue(n));
      var b := SetUniform(DEFAULT_SHADER_NAME_TEXTURELESS, name, IntValue(n));
      var earlier := ShadowMapSlots(n - 1);
      ShadowMapSlotsLeave(n - 1, shader);
      assert DEFAULT_SHADER_NAME_TEXTURE != DEFAULT_SHADER_NAME_TEXTURELESS;
      assert ShadowMapSlots(n) == (earlier + [a]) + [b];
      assert (earlier + [a] + [b])[..|earlier| + 1] == earlier + [a];
      assert (earlier + [a])[..|earlier|] == earlier;
    }
  }

  lemma LookupPastOne<K, V>(m: map<K, V>, a: K, va: V, key: K)
    ensures key in m[a := va] <==> key == a || key in m
    ensures key == a ==> m[a := va][key] == va
    ensures key != a && key in m ==> m[a := va][key] == m[key]
  {
  }

  lemma {:induction false} SlotMapMeaning(n: nat)
    ensures forall i :: 0 <= i < n ==> Indexed("shadowMaps", i, "") in SlotMap(n) && SlotMap(n)[Indexed("shadowMaps", i, "")] == IntValue(i + 1)
    ensures forall name :: name in SlotMap(n) ==> |name| > 0 && name[0] == 's'
    decreases n
  {
    if n > 0 {
      var k := n - 1;
      var name := Indexed("shadowMaps", k, "");
      SlotMapMeaning(k);
      assert SlotMap(n) == SlotMap(k)[name := IntValue(n)];
      forall i | 0 <= i < n
        ensures Indexed("shadowMaps", i, "") in SlotMap(n) && SlotMap(n)[Indexed("shadowMaps", i, "")] == IntValue(i + 1)
      {
        IndexedInjective("shadowMaps", i, "", k, "");
        LookupPastOne(SlotMap(k), name, IntValue(n), Indexed("shadowMaps", i, ""));
      }
      forall other | other in SlotMap(n)
        ensures |other| > 0 && other[0] == 's'
      {
        LookupPastOne(SlotMap(k), name, IntValue(n), other);
      }
    }
  }

  /** The six count and ambient writes after the debug quad's two. */
  lemma LightCountUniforms(ambient: Vec3, pointLights: int, dirLights: int, shader: string)
    requires IsDefaultShader(shader)
    ensures var u := Uniforms(DebugQuadInit() + DefaultShaderUniforms(ambient, pointLights, dirLights), shader);
      "pointLightCount" in u && u["pointLightCount"] == IntValue(pointLights) &&
      "dirLightCount" in u && u["dirLightCount"] == IntValue(dirLights) &&
      "globalAmbientLight" in u && u["globalAmbientLight"] == Vec3Value(ambient)
  {
    var first := DebugQuadInit() + DefaultShaderUniforms(ambient, pointLights, dirLights);
    assert DEFAULT_SHADER_NAME_TEXTURE != DEFAULT_SHADER_NAME_TEXTURELESS;
    var g, p, d := "globalAmbientLight", "pointLightCount", "dirLightCount";
    assert g[0] == 'g' && p[0] == 'p' && d[0] == 'd';
    var t := if shader == DEFAULT_SHADER_NAME_TEXTURE then 0 else 1;
    LastWriteWins(first, shader, 2 + t);
    LastWriteWins(first, shader, 5 + 2 * t);
    LastWriteWins(first, shader, 4 + 2 * t);
  }

  /** BeforeFirstRender points shadowMaps[i] at texture unit i + 1 in both
      default shaders, for every i < lightCount, and sets the light counts
      and the global ambient light. */
  lemma BeforeFirstRenderUniforms(ambient: Vec3, pointLights: int, dirLights: int, lightCount: nat, shader: string)
    requires IsDefaultShader(shader)
    ensures var u := Uniforms(BeforeFirstRenderCmds(ambient, pointLights, dirLights, lightCount), shader);
      (forall i :: 0 <= i < lightCount ==> Indexed("shadowMaps", i, "") in u && u[Indexed("shadowMaps", i, "")] == IntValue(i + 1)) &&
      "pointLightCount" in u && u["pointLightCount"] == IntValue(pointLights) &&
      "dirLightCount" in u && u["dirLightCount"] == IntValue(dirLights) &&
      "globalAmbientLight" in u && u["globalAmbientLight"] == Vec3Value(ambient)
  {
    var first := DebugQuadInit() + DefaultShaderUniforms(ambient, pointLights, dirLights);
    var u1 := Uniforms(first, shader);
    var us := SlotMap(lightCount);
    assert Uniforms(BeforeFirstRenderCmds(ambient, pointLights, dirLights, lightCount), shader) == u1 + us by {
      assert BeforeFirstRenderCmds(ambient, pointLights, dirLights, lightCount) == first + ShadowMapSlots(lightCount);
      UniformsAppend(first, ShadowMapSlots(lightCount), shader);
      ShadowMapSlotsLeave(lightCount, shader);
    }
    SlotMapMeaning(lightCount);
    LightCountUniforms(ambient, pointLights, dirLights, shader);
    var g, p, d := "globalAmbientLight", "pointLightCount", "dirLightCount";
    assert g[0] == 'g' && p[0] == 'p' && d[0] == 'd';
    LookupMerged(u1, us, g);
    LookupMerged(u1, us, p);
    LookupMerged(u1, us, d);
    forall i | 0 <= i < lightCount
      ensures Indexed("shadowMaps", i, "") in u1 + us && (u1 + us)[Indexed("shadowMaps", i, "")] == IntValue(i + 1)
    {
      LookupMerged(u1, us, Indexed("shadowMaps", i, ""));
    }
  }

  /** The shadow-map slots write only the two default shaders. */
  lemma {:induction false} ShadowMapSlotsElsewhere(n: nat, shader: string)
    requires !IsDefaultShader(shader)
    ensures Uniforms(ShadowMapSlots(n), shader) == map[]
    decreases n
  {
    if n > 0 {
      var name := Indexed("shadowMaps", n - 1, "");
      var a := SetUniform(DEFAULT_SHADER_NAME_TEXTURE, name, IntValue(n));
      var b := SetUniform(DEFAULT_SHADER_NAME_TEXTURELESS, name, IntValue(n));
      var earlier := ShadowMapSlots(n - 1);
      ShadowMapSlotsElsewhere(n - 1, shader);
      assert ShadowMapSlots(n) == (earlier + [a]) + [b];
      assert (earlier + [a] + [b])[..|earlier| + 1] == earlier + [a];
      assert (earlier + [a])[..|earlier|] == earlier;
    }
  }

  /** After BeforeFirstRender the debug quad's shader holds exactly the scale
      and translation of the quad's default size and place: no later write of
      the set-up touches it. */
  lemma DebugQuadUniforms(ambient: Vec3, pointLights: int, dirLights: int, lightCount: nat)
    ensures Uniforms(BeforeFirstRenderCmds(ambient, pointLights, dirLights, lightCount), DEBUG_QUAD_SHADER) ==
      map["scale" := Mat4Value(ScaleBy(Identity, Vec3(0.25, 0.25, 0.0))),
          "translation" := Mat4Value(Translate(Identity, Vec3(0.75, 0.75, 0.0)))]
  {
    var d := DefaultShaderUniforms(ambient, pointLights, dirLights);
    var slots := ShadowMapSlots(lightCount);
    assert DEBUG_QUAD_SHADER[0] == 'd' && DEFAULT_SHADER_NAME_TEXTURE[0] == 'p' && DEFAULT_SHADER_NAME_TEXTURELESS[0] == 'p';
    assert BeforeFirstRenderCmds(ambient, pointLights, dirLights, lightCount) == DebugQuadInit() + (d + slots);
    UniformsAppend(DebugQuadInit(), d + slots, DEBUG_QUAD_SHADER);
    UniformsAppend(d, slots, DEBUG_QUAD_SHADER);
    UniformsUntouched(d, DEBUG_QUAD_SHADER);
    ShadowMapSlotsElsewhere(lightCount, DEBUG_QUAD_SHADER);
    var scale := DebugQuadInit()[0];
    UniformsSnoc([], scale.name, scale.value, DEBUG_QUAD_SHADER);
    UniformsSnoc([scale], DebugQuadInit()[1].name, DebugQuadInit()[1].value, DEBUG_QUAD_SHADER);
    assert [scale] + [DebugQuadInit()[1]] == DebugQuadInit();
  }

  // ---------------------------------------------------------------- the shadow-map view index

  /** One press moves to the next light, and from the last light back to light 0. */
  lemma NextIndexWraps(index: int, lightCount: int)
    requires 0 <= index < lightCount
    ensures NextIndex(index, lightCount) == if index + 1 < lightCount then index + 1 else 0
  {
  }

  /** Pressing C walks the view index up by one light at a time and wraps
      from the last light to light 0, so from any start every light is
      visited within lightCount presses. */
  lemma {:induction false} IndexAfterSteps(index: int, lightCount: int, presses: nat)
    requires 0 <= index < lightCount && presses <= lightCount - index
    ensures IndexAfter(index, lightCount, presses) == if index + presses < lightCount then index + presses else 0
    decreases presses
  {
    if presses > 0 {
      IndexAfterSteps(index, lightCount, presses - 1);
      NextIndexWraps(index + presses - 1, lightCount);
    }
  }
}
