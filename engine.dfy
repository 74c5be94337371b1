/** The scene container (GraphicsEngine.h, GraphicsEngine.cpp): a light
    table of MAX_LIGHTS slots with running counts, the entity and point-light
    lists, the resource managers, shader assignment, and the dispatch of
    keyboard and mouse input to the camera, the window and the renderer.
    The window's key state and the files on disk are parameters. */
module GraphicsEngines {
  import opened Wrappers
  import opened Glm
  import opened Constants
  import opened Assets
  import opened Gpu
  import opened Registries
  import Lights
  import Cameras
  import Entities
  import MeshCreator
  import MeshLoader
  import MeshManagers
  import TextureManagers
  import ShaderManagers
  import Rendering
  import UI
  import Windows

  /** GLFW key codes. */
  const GLFW_KEY_A: int := 65
  const GLFW_KEY_C: int := 67
  const GLFW_KEY_D: int := 68
  const GLFW_KEY_E: int := 69
  const GLFW_KEY_F: int := 70
  const GLFW_KEY_Q: int := 81
  const GLFW_KEY_S: int := 83
  const GLFW_KEY_W: int := 87
  const GLFW_KEY_ESCAPE: int := 256
  const GLFW_KEY_TAB: int := 258

  const SKYBOX_SHADER: string := "skybox"
  const PLANE_MESH: string := "plane"
  const CUBE_MESH: string := "cube"
  const SPHERE_MESH: string := "sphere.obj"
  /** The plane mesh repeats its texture this many times along each side. */
  const PLANE_TEXTURE_REPEATS: int := 4

  // ---------------------------------------------------------------- integer division

  function Abs(a: int): nat { if a < 0 then -a else a }

  /** C++ division of two ints, which truncates toward zero (Dafny's `/` is
      Euclidean): the magnitude is the quotient of the magnitudes and the
      sign is the product of the signs. */
  function TruncDiv(a: int, b: int): (q: int)
    requires b != 0
    ensures a >= 0 && b > 0 ==> q == a / b
    ensures -a >= 0 && b > 0 ==> q == -((-a) / b)
  {
    if (a >= 0) == (b > 0) then Abs(a) / Abs(b) else -(Abs(a) / Abs(b))
  }

  /** For a non-negative width and a positive height the quotient is the
      whole number of heights in the width: the fraction is dropped. */
  lemma TruncDivDropsFraction(a: int, b: int)
    requires a >= 0 && b > 0
    ensures TruncDiv(a, b) >= 0 && b * TruncDiv(a, b) <= a < b * TruncDiv(a, b) + b
  {
    var q, r := a / b, a % b;
    assert a == b * q + r && 0 <= r < b;
  }

  /** In the default 1280 x 720 window a point light's shadow frustum gets
      aspect ratio 1, not 16 / 9. */
  lemma DefaultWindowPointLightAspect()
    ensures TruncDiv(DEFAULT_WINDOW_WIDTH, DEFAULT_WINDOW_HEIGHT) == 1
  {
  }

  // ---------------------------------------------------------------- the light table

  /** The point lights among `ls`, in table order. */
  function PointLightsIn(ls: seq<Lights.Light?>): (r: seq<Lights.Light>)
    ensures |r| <= |ls|
    ensures forall k :: 0 <= k < |r| ==> r[k].kind == Lights.PointLight && r[k] in ls
    decreases |ls|
  {
    if |ls| == 0 then []
    else
      var init := PointLightsIn(ls[..|ls| - 1]);
      var l := ls[|ls| - 1];
      if l != null && l.kind == Lights.PointLight then init + [l] else init
  }

  /** How many of `ls` are lights of the given kind. */
  function CountKind(ls: seq<Lights.Light?>, kind: Lights.LightKind): nat
    decreases |ls|
  {
    if |ls| == 0 then 0
    else
      var l := ls[|ls| - 1];
      CountKind(ls[..|ls| - 1], kind) + if l != null && l.kind == kind then 1 else 0
  }

  predicate NoNulls(ls: seq<Lights.Light?>) {
    forall k :: 0 <= k < |ls| ==> ls[k] != null
  }

  /** Every light is a point light or a directional light, so the two counts
      add up to the number of lights. */
  lemma {:induction false} KindsAddUp(ls: seq<Lights.Light?>)
    requires NoNulls(ls)
    ensures CountKind(ls, Lights.PointLight) + CountKind(ls, Lights.DirectionalLight) == |ls|
    ensures |PointLightsIn(ls)| == CountKind(ls, Lights.PointLight)
    decreases |ls|
  {
    if |ls| > 0 {
      KindsAddUp(ls[..|ls| - 1]);
    }
  }

  lemma AppendLight(ls: seq<Lights.Light?>, l: Lights.Light)
    ensures (ls + [l])[..|ls|] == ls
    ensures PointLightsIn(ls + [l]) == PointLightsIn(ls) + (if l.kind == Lights.PointLight then [l] else [])
    ensures CountKind(ls + [l], Lights.PointLight) == CountKind(ls, Lights.PointLight) + (if l.kind == Lights.PointLight then 1 else 0)
    ensures CountKind(ls + [l], Lights.DirectionalLight) == CountKind(ls, Lights.DirectionalLight) + (if l.kind == Lights.DirectionalLight then 1 else 0)
  {
    assert (ls + [l])[..|ls|] == ls;
  }

  // ---------------------------------------------------------------- input

  /** The pull of a pair of opposite keys along `v`: nothing when both or
      neither are held. */
  function Pull(held: set<int>, plus: int, minus: int, v: Vec3): Vec3 {
    if (plus in held) == (minus in held) then ZERO else if plus in held then v else Neg(v)
  }

  /** The CalculateVelocity calls of ProcessInput, in its order: W, A, S, D, Q, E. */
  function HeldMoves(held: set<int>): seq<Cameras.MoveDirection> {
    IfHeld(held, GLFW_KEY_W, Cameras.Forward) + IfHeld(held, GLFW_KEY_A, Cameras.Left) +
    IfHeld(held, GLFW_KEY_S, Cameras.Backward) + IfHeld(held, GLFW_KEY_D, Cameras.Right) +
    IfHeld(held, GLFW_KEY_Q, Cameras.Up) + IfHeld(held, GLFW_KEY_E, Cameras.Down)
  }

  /** The movement keys, each pressed at most once, in ProcessInput's order. */
  function IfHeld(held: set<int>, key: int, d: Cameras.MoveDirection): seq<Cameras.MoveDirection> {
    if key in held then [d] else []
  }

  lemma {:induction false} TotalAppend(a: seq<Cameras.MoveDirection>, b: seq<Cameras.MoveDirection>, f: Cameras.Frame)
    ensures Cameras.Total(a + b, f) == Add(Cameras.Total(a, f), Cameras.Total(b, f))
    decreases |b|
  {
    if |b| == 0 {
      assert a + b == a;
    } else {
      var init, last := b[..|b| - 1], b[|b| - 1];
      var c := Cameras.Contribution(last, f);
      assert (a + b)[..|a + b| - 1] == a + init && (a + b)[|a + b| - 1] == last;
      assert Cameras.Total(a + b, f) == Add(Cameras.Total(a + init, f), c);
      assert Cameras.Total(b, f) == Add(Cameras.Total(init, f), c);
      TotalAppend(a, init, f);
    }
  }

  lemma TotalSnoc(moves: seq<Cameras.MoveDirection>, d: Cameras.MoveDirection, f: Cameras.Frame)
    ensures Cameras.Total(moves + [d], f) == Add(Cameras.Total(moves, f), Cameras.Contribution(d, f))
  {
    assert (moves + [d])[..|moves|] == moves;
  }

  lemma TotalIfHeld(held: set<int>, key: int, d: Cameras.MoveDirection, f: Cameras.Frame)
    ensures Cameras.Total(IfHeld(held, key, d), f) == if key in held then Cameras.Contribution(d, f) else ZERO
  {
    if key in held {
      assert [d][..0] == [];
    }
  }

  /** The calls of one pair of opposite keys add up to their pull. */
  lemma PairPull(held: set<int>, plus: int, minus: int, dPlus: Cameras.MoveDirection,
                 dMinus: Cameras.MoveDirection, v: Vec3, f: Cameras.Frame)
    requires Cameras.Contribution(dPlus, f) == v && Cameras.Contribution(dMinus, f) == Neg(v)
    ensures Add(Cameras.Total(IfHeld(held, plus, dPlus), f), Cameras.Total(IfHeld(held, minus, dMinus), f)) ==
      Pull(held, plus, minus, v)
  {
    TotalIfHeld(held, plus, dPlus, f);
    TotalIfHeld(held, minus, dMinus, f);
  }

  lemma Regroup(w: Vec3, a: Vec3, s: Vec3, d: Vec3, q: Vec3, e: Vec3)
    ensures Add(Add(Add(Add(Add(w, a), s), d), q), e) == Add(Add(Add(w, s), Add(d, a)), Add(q, e))
  {
  }

  /** The velocity ProcessInput builds from rest: W and S, D and A, Q and E
      pull against each other along the view, right and up vectors, so
      holding both keys of a pair cancels them, and the order of the calls
      does not matter. */
  lemma HeldKeysVelocity(held: set<int>, f: Cameras.Frame)
    ensures Cameras.Accumulated(ZERO, HeldMoves(held), f) ==
      Add(Add(Pull(held, GLFW_KEY_W, GLFW_KEY_S, f.view), Pull(held, GLFW_KEY_D, GLFW_KEY_A, f.right)),
          Pull(held, GLFW_KEY_Q, GLFW_KEY_E, f.up))
  {
    var w, a, s := IfHeld(held, GLFW_KEY_W, Cameras.Forward), IfHeld(held, GLFW_KEY_A, Cameras.Left), IfHeld(held, GLFW_KEY_S, Cameras.Backward);
    var d, q, e := IfHeld(held, GLFW_KEY_D, Cameras.Right), IfHeld(held, GLFW_KEY_Q, Cameras.Up), IfHeld(held, GLFW_KEY_E, Cameras.Down);
    var tw, ta, ts := Cameras.Total(w, f), Cameras.Total(a, f), Cameras.Total(s, f);
    var td, tq, te := Cameras.Total(d, f), Cameras.Total(q, f), Cameras.Total(e, f);
    assert Cameras.Accumulated(ZERO, HeldMoves(held), f) == Cameras.Total(w + a + s + d + q + e, f) by {
      Cameras.AccumulatedIsTotal(ZERO, HeldMoves(held), f);
    }
    assert Cameras.Total(w + a + s + d + q + e, f) == Add(Add(Add(Add(Add(tw, ta), ts), td), tq), te) by {
      TotalAppend(w + a + s + d + q, e, f);
      TotalAppend(w + a + s + d, q, f);
      TotalAppend(w + a + s, d, f);
      TotalAppend(w + a, s, f);
      TotalAppend(w, a, f);
    }
    Regroup(tw, ta, ts, td, tq, te);
    PairPull(held, GLFW_KEY_W, GLFW_KEY_S, Cameras.Forward, Cameras.Backward, f.view, f);
    PairPull(held, GLFW_KEY_D, GLFW_KEY_A, Cameras.Right, Cameras.Left, f.right, f);
    PairPull(held, GLFW_KEY_Q, GLFW_KEY_E, Cameras.Up, Cameras.Down, f.up, f);
  }

  /** What a key event asks of the engine. */
  datatype KeyCommand = ReleaseCursor | ToggleWireframe | ToggleShadowMapView | CycleShadowMapView | NoCommand

  /** GraphicsEngine::KeyCallback's dispatch: only a press acts, and each of
      ESC, F, TAB and C has its own command. */
  function KeyCommandOf(key: int, action: int): (c: KeyCommand)
    ensures c == ReleaseCursor <==> key == GLFW_KEY_ESCAPE && action == Windows.GLFW_PRESS
    ensures c == ToggleWireframe <==> key == GLFW_KEY_F && action == Windows.GLFW_PRESS
    ensures c == ToggleShadowMapView <==> key == GLFW_KEY_TAB && action == Windows.GLFW_PRESS
    ensures c == CycleShadowMapView <==> key == GLFW_KEY_C && action == Windows.GLFW_PRESS
  {
    if action != Windows.GLFW_PRESS then NoCommand
    else if key == GLFW_KEY_ESCAPE then ReleaseCursor
    else if key == GLFW_KEY_F then ToggleWireframe
    else if key == GLFW_KEY_TAB then ToggleShadowMapView
    else if key == GLFW_KEY_C then CycleShadowMapView
    else NoCommand
  }

  /** The renderer flags after a command; cycling the view needs a light. */
  function FlagsAfter(f: Rendering.Flags, c: KeyCommand, lightCount: int): (r: Rendering.Flags)
    requires c == CycleShadowMapView ==> lightCount > 0
    ensures c == CycleShadowMapView ==> 0 <= r.shadowMapViewIndex < lightCount
    ensures c != CycleShadowMapView ==> r.shadowMapViewIndex == f.shadowMapViewIndex
    ensures r.skybox == f.skybox && r.renderPointLights == f.renderPointLights
  {
    match c
    case ToggleWireframe => f.(wireframe := !f.wireframe)
    case ToggleShadowMapView => f.(renderShadowMap := !f.renderShadowMap)
    case CycleShadowMapView => f.(shadowMapViewIndex := Rendering.NextIndex(f.shadowMapViewIndex, lightCount))
    case _ => f
  }

  /** Pressing F, or TAB, twice leaves the renderer as it was. */
  lemma PressingTwiceRestores(f: Rendering.Flags, key: int, lightCount: int)
    requires key == GLFW_KEY_F || key == GLFW_KEY_TAB
    ensures var c := KeyCommandOf(key, Windows.GLFW_PRESS);
      FlagsAfter(FlagsAfter(f, c, lightCount), c, lightCount) == f
  {
  }

  /** A release or a repeat changes no flag, and neither does any key other
      than F, TAB and C. */
  lemma OnlyPressesOfFlagKeysChangeFlags(f: Rendering.Flags, key: int, action: int, lightCount: int)
    requires action != Windows.GLFW_PRESS || (key != GLFW_KEY_F && key != GLFW_KEY_TAB && key != GLFW_KEY_C)
    ensures FlagsAfter(f, KeyCommandOf(key, action), lightCount) == f
  {
  }

  /** The shader AssignShaders gives an entity. */
  function ShaderFor(hasTexture: bool): (r: string)
    ensures r == DEFAULT_SHADER_NAME_TEXTURE <==> hasTexture
    ensures r == DEFAULT_SHADER_NAME_TEXTURELESS <==> !hasTexture
  {
    if hasTexture then DEFAULT_SHADER_NAME_TEXTURE else DEFAULT_SHADER_NAME_TEXTURELESS
  }

  predicate DistinctEntities(es: seq<Entities.Entity>) {
    forall i, j :: 0 <= i < j < |es| ==> es[i] != es[j]
  }

  /** The meshes GraphicsEngine::GraphicsEngine creates, by name: the plane
      and the cube primitives and the sphere model read from its file. */
  function BuiltInMeshes(files: map<string, seq<string>>): map<string, Option<Mesh>>
    requires MeshLoader.LoadedMesh(MeshManagers.OpenFile(files, MODEL_PATH + SPHERE_MESH)).Ok?
  {
    map[
      PLANE_MESH := Some(MeshCreator.CreatePlane(PLANE_TEXTURE_REPEATS)),
      CUBE_MESH := Some(MeshCreator.CreateCube()),
      SPHERE_MESH := MeshLoader.LoadedMesh(MeshManagers.OpenFile(files, MODEL_PATH + SPHERE_MESH)).value]
  }

  /** The mesh manager GraphicsEngine::GraphicsEngine builds: the two
      primitives, then the sphere model from its file, each under a name
      not yet taken. */
  method BuiltInMeshManager(files: map<string, seq<string>>) returns (mm: MeshManagers.MeshManager)
    requires MeshLoader.LoadedMesh(MeshManagers.OpenFile(files, MODEL_PATH + SPHERE_MESH)).Ok?
    ensures fresh(mm) && mm.meshes == BuiltInMeshes(files)
    ensures mm.GetMesh(CUBE_MESH).Ok?
  {
    assert PLANE_MESH[0] == 'p' && CUBE_MESH[0] == 'c' && SPHERE_MESH[0] == 's';
    mm := new MeshManagers.MeshManager();
    var plane := MeshCreator.CreatePlane(PLANE_TEXTURE_REPEATS);
    var cube := MeshCreator.CreateCube();
    var created := mm.CreateMesh(PLANE_MESH, Some(plane));
    created := mm.CreateMesh(CUBE_MESH, Some(cube));
    assert mm.meshes == map[PLANE_MESH := Some(plane), CUBE_MESH := Some(cube)];
    created := mm.CreateMeshFromFile(SPHERE_MESH, files);
    assert created;
  }

  class GraphicsEngine {
    const window: Windows.Window
    const camera: Cameras.Camera
    const renderer: Rendering.Renderer
    const meshManager: MeshManagers.MeshManager
    const textureManager: TextureManagers.TextureManager
    const shaderManager: ShaderManagers.ShaderManager
    const uiController: UI.UIController
    /** The per-subclass light id counters (static members in C++). */
    const counters: Lights.LightCounters
    /** m_lights: the first numLights slots hold the engine's lights. */
    const lights: array<Lights.Light?>
    var numLights: int
    var pointLightCount: int
    var directionalLightCount: int
    var entities: seq<Entities.Entity>
    var pointLights: seq<Lights.Light>
    var globalAmbientLight: Vec3
    /** The skybox, by its cubemap directory. */
    var skybox: Option<string>
    var enableBackfaceCulling: bool

    /** The occupied part of the light table. */
    function ActiveLights(): seq<Lights.Light?>
      reads this, lights
      requires 0 <= numLights <= lights.Length
    {
      lights[..numLights]
    }

    /** The light table holds numLights distinct lights, each with shadow data. */
    predicate LightTable()
      reads this, lights, set k | 0 <= k < lights.Length :: lights[k]
    {
      lights.Length == MAX_LIGHTS && 0 <= numLights <= MAX_LIGHTS &&
      (forall k :: 0 <= k < numLights ==> lights[k] != null && lights[k].shadowData != null) &&
      (forall i, j :: 0 <= i < j < numLights ==> lights[i] != lights[j])
    }

    /** The two light counts and the point-light list are those of `ls`. */
    predicate CountsFollow(ls: seq<Lights.Light?>)
      reads this, set k | 0 <= k < |ls| :: ls[k]
    {
      pointLights == PointLightsIn(ls) &&
      pointLightCount == CountKind(ls, Lights.PointLight) &&
      directionalLightCount == CountKind(ls, Lights.DirectionalLight)
    }

    /** The counts and the point-light list follow the table; the renderer's
        skybox is the engine's; the built-in cube mesh is there. */
    predicate Valid()
      reads this, lights, set k | 0 <= k < lights.Length :: lights[k]
      reads renderer, uiController, meshManager
    {
      LightTable() && CountsFollow(ActiveLights()) && DistinctEntities(entities) &&
      renderer.Valid() && renderer.skybox == skybox && uiController.Valid() &&
      meshManager.GetMesh(CUBE_MESH).Ok?
    }

    /** The user interface has one name per entity and one per light, which
        UIController::BeforeFirstRender insists on. */
    predicate NamesMatchScene()
      reads this, uiController, uiController.entFreq, uiController.lightFreq
    {
      uiController.entFreq.GetSize() == |entities| && uiController.lightFreq.GetSize() == numLights
    }

    /** Without overflow, numLights = pointLightCount + directionalLightCount,
        and the point-light list has one entry per point light. */
    lemma CountsAddUp()
      requires Valid()
      ensures numLights == pointLightCount + directionalLightCount
      ensures |pointLights| == pointLightCount <= numLights
    {
      KindsAddUp(ActiveLights());
    }

    /** GraphicsEngine::GraphicsEngine: an empty scene, culling on, the
        built-in plane and cube meshes and the sphere model loaded. The
        clear colour is the one OpenGL holds, which the renderer saves. A
        sphere file that fails to parse fails an assertion there. */
    constructor (window: Windows.Window, counters: Lights.LightCounters, clearColour: Vec4,
                 files: map<string, seq<string>>)
      requires MeshLoader.LoadedMesh(MeshManagers.OpenFile(files, MODEL_PATH + SPHERE_MESH)).Ok?
      ensures Valid() && NamesMatchScene()
      ensures this.window == window && this.counters == counters
      ensures numLights == 0 && pointLightCount == 0 && directionalLightCount == 0
      ensures entities == [] && pointLights == [] && skybox == None && enableBackfaceCulling
      ensures fresh(camera) && camera.position == Cameras.DEFAULT_CAMERA_POSITION && camera.vel == ZERO
      ensures camera.projectionMatrix == Cameras.Projection(window.width, window.height)
      ensures fresh(renderer) && renderer.defaultClearColour == clearColour && !renderer.defaultShadersAssigned
      ensures renderer.CurrentFlags() == Rendering.Flags(false, false, false, 0, None)
      ensures fresh(meshManager) && meshManager.meshes == BuiltInMeshes(files)
      ensures fresh(textureManager) && textureManager.textures == map[]
      ensures fresh(shaderManager) && shaderManager.shaders == map[]
      ensures fresh(uiController) && uiController.entFreq.strings == [] && uiController.lightFreq.strings == []
      ensures fresh(lights)
    {
      this.window := window;
      this.counters := counters;
      camera := new Cameras.Camera(window.width, window.height, Cameras.DEFAULT_CAMERA_POSITION);
      numLights, directionalLightCount, pointLightCount := 0, 0, 0;
      renderer := new Rendering.Renderer(clearColour);
      uiController := new UI.UIController();
      skybox := None;
      enableBackfaceCulling := true;
      lights := new Lights.Light?[MAX_LIGHTS](_ => null);
      entities, pointLights := [], [];
      var mm := BuiltInMeshManager(files);
      meshManager := mm;
      textureManager := new TextureManagers.TextureManager();
      shaderManager := new ShaderManagers.ShaderManager();
      new;
      assert ActiveLights() == [];
    }

    /** GraphicsEngine::AddMesh: loads MODEL_PATH + filename into the mesh manager. */
    method AddMesh(filename: string, files: map<string, seq<string>>) returns (ok: bool)
      modifies meshManager
      ensures var loaded := MeshLoader.LoadedMesh(MeshManagers.OpenFile(files, MODEL_PATH + filename));
        (ok <==> loaded.Ok? && filename !in old(meshManager.meshes)) &&
        meshManager.meshes == if ok then old(meshManager.meshes)[filename := loaded.value] else old(meshManager.meshes)
    {
      ok := meshManager.CreateMeshFromFile(filename, files);
    }

    /** GraphicsEngine::AddTexture. */
    method AddTexture(filename: string) returns (ok: bool)
      modifies textureManager
      ensures ok <==> filename !in old(textureManager.textures)
      ensures textureManager.textures ==
        if ok then old(textureManager.textures)[filename := TextureManagers.LoadTexture(filename)] else old(textureManager.textures)
    {
      ok := textureManager.CreateTexture(filename);
    }

    /** GraphicsEngine::AddShader: the program of a shader directory is its
        vert.glsl and frag.glsl, registered under the directory's name. */
    method AddShader(dirName: string)
      modifies shaderManager
      ensures shaderManager.shaders == ShaderManagers.Emplace(old(shaderManager.shaders), dirName,
        ShaderProgram(SHADER_PATH + dirName + "/vert.glsl", SHADER_PATH + dirName + "/frag.glsl"))
    {
      var vertPath := SHADER_PATH + dirName + "/vert.glsl";
      var fragPath := SHADER_PATH + dirName + "/frag.glsl";
      shaderManager.RegisterShader(vertPath, fragPath, dirName);
    }

    /** GraphicsEngine::AddLight: the light goes into slot numLights, which
        is then counted; a full table fails an assertion and keeps nothing. */
    method AddLight(l: Lights.Light) returns (ok: bool)
      requires LightTable() && l.shadowData != null && l !in ActiveLights()
      modifies this, lights
      ensures LightTable()
      ensures ok <==> old(numLights) < MAX_LIGHTS
      ensures ok ==> numLights == old(numLights) + 1 && lights[..] == old(lights[..])[old(numLights) := l]
      ensures ok ==> ActiveLights() == old(ActiveLights()) + [l]
      ensures !ok ==> numLights == old(numLights) && lights[..] == old(lights[..])
      ensures entities == old(entities) && pointLights == old(pointLights) && skybox == old(skybox)
      ensures pointLightCount == old(pointLightCount) && directionalLightCount == old(directionalLightCount)
      ensures globalAmbientLight == old(globalAmbientLight) && enableBackfaceCulling == old(enableBackfaceCulling)
    {
      if numLights >= MAX_LIGHTS {
        return false;
      }
      lights[numLights] := l;
      numLights := numLights + 1;
      assert lights[..numLights] == old(lights[..numLights]) + [l];
      return true;
    }

    /** GraphicsEngine::CreatePointLight: the name goes to the user interface,
        the light gets shadow data for the window's aspect ratio, computed in
        integer division, and is added to the table, counted and appended to
        the point-light list. A zero window height divides by zero. */
    method CreatePointLight(position: Vec3, colour: Vec3, intensity: real) returns (ok: bool)
      requires Valid() && Lights.IsValidColour(colour) && Lights.IsValidIntensity(intensity) && window.height != 0
      modifies this, lights, counters, uiController.entFreq, uiController.lightFreq
      ensures uiController.lightFreq.strings == old(uiController.lightFreq.strings) + [UI.POINT_LIGHT_NAME]
      ensures uiController.entFreq.strings == old(uiController.entFreq.strings)
      ensures counters.points == old(counters.points) + 1 && counters.directionals == old(counters.directionals)
      ensures ok <==> old(numLights) < MAX_LIGHTS
      ensures ok ==> Valid() && (old(NamesMatchScene()) ==> NamesMatchScene())
      ensures ok ==> numLights == old(numLights) + 1 && lights[..] == old(lights[..])[old(numLights) := lights[old(numLights)]]
      ensures ok ==> pointLightCount == old(pointLightCount) + 1 && directionalLightCount == old(directionalLightCount)
      ensures ok ==> pointLights == old(pointLights) + [lights[old(numLights)]]
      ensures ok ==> var l := lights[old(numLights)];
        fresh(l) && l.kind == Lights.PointLight && l.id == old(counters.points) &&
        l.position == position && l.attenuation == Lights.DEFAULT_ATTENUATION &&
        Lights.TermsFromColour(l.State(), colour) && l.intensity == intensity &&
        l.shadowData.State() == Lights.PointShadow(position, TruncDiv(window.width, window.height) as real)
      ensures entities == old(entities) && skybox == old(skybox)
    {
      uiController.AddSceneObject(UI.POINT_LIGHT_NAME);
      var pointLight := NewPointLight(position, colour, intensity, TruncDiv(window.width, window.height));
      ok := AddLight(pointLight);
      if !ok {
        return;
      }
      CountPointLight(pointLight);
    }

    /** The last two steps of CreatePointLight, once the light is in the
        table: it is counted and appended to the point-light list. */
    method CountPointLight(l: Lights.Light)
      requires LightTable() && numLights > 0 && lights[numLights - 1] == l && l.kind == Lights.PointLight
      requires CountsFollow(ActiveLights()[..numLights - 1])
      modifies this
      ensures LightTable() && CountsFollow(ActiveLights())
      ensures pointLightCount == old(pointLightCount) + 1 && pointLights == old(pointLights) + [l]
      ensures numLights == old(numLights) && directionalLightCount == old(directionalLightCount)
      ensures entities == old(entities) && skybox == old(skybox)
      ensures globalAmbientLight == old(globalAmbientLight) && enableBackfaceCulling == old(enableBackfaceCulling)
    {
      ghost var before := ActiveLights()[..numLights - 1];
      assert ActiveLights() == before + [l];
      AppendLight(before, l);
      pointLightCount := pointLightCount + 1;
      pointLights := pointLights + [l];
    }

    /** The first two steps of CreatePointLight's light: `new PointLight`
        with the default attenuation, then its shadow data for the aspect
        ratio, an int converted to float. */
    method NewPointLight(position: Vec3, colour: Vec3, intensity: real, aspect: int) returns (l: Lights.Light)
      requires Lights.IsValidColour(colour) && Lights.IsValidIntensity(intensity)
      modifies counters
      ensures fresh(l) && l.kind == Lights.PointLight && l.id == old(counters.points)
      ensures counters.points == old(counters.points) + 1 && counters.directionals == old(counters.directionals)
      ensures l.position == position && l.attenuation == Lights.DEFAULT_ATTENUATION
      ensures Lights.TermsFromColour(l.State(), colour) && l.intensity == intensity
      ensures l.shadowData != null && l.shadowData.State() == Lights.PointShadow(position, aspect as real)
    {
      l := new Lights.Light.Point(counters, position, colour, intensity, Lights.DEFAULT_ATTENUATION);
      l.CreateShadowData(aspect as real);
    }

    /** GraphicsEngine::CreateDirectionalLight: the name goes to the user
        interface; the direction is normalised here and again by the light. */
    method CreateDirectionalLight(direction: Vec3, colour: Vec3, intensity: real) returns (ok: bool)
      requires Valid() && Lights.IsValidColour(colour) && Lights.IsValidIntensity(intensity)
      requires HasPositiveLength(direction)
      modifies this, lights, counters, uiController.entFreq, uiController.lightFreq
      ensures uiController.lightFreq.strings == old(uiController.lightFreq.strings) + [UI.DIRECTIONAL_LIGHT_NAME]
      ensures uiController.entFreq.strings == old(uiController.entFreq.strings)
      ensures counters.directionals == old(counters.directionals) + 1 && counters.points == old(counters.points)
      ensures ok <==> old(numLights) < MAX_LIGHTS
      ensures ok ==> Valid() && (old(NamesMatchScene()) ==> NamesMatchScene())
      ensures ok ==> numLights == old(numLights) + 1 && lights[..] == old(lights[..])[old(numLights) := lights[old(numLights)]]
      ensures ok ==> directionalLightCount == old(directionalLightCount) + 1 && pointLightCount == old(pointLightCount)
      ensures ok ==> pointLights == old(pointLights)
      ensures ok ==> var l := lights[old(numLights)];
        fresh(l) && l.kind == Lights.DirectionalLight && l.id == old(counters.directionals) &&
        l.direction == Normalize(Normalize(direction)) &&
        Lights.TermsFromColour(l.State(), colour) && l.intensity == intensity &&
        Lights.CreateViewMatrix(l.direction).Ok? &&
        l.shadowData.State() == Lights.DirectionalShadow(Lights.CreateViewMatrix(l.direction).value)
      ensures entities == old(entities) && skybox == old(skybox)
    {
      uiController.AddSceneObject(UI.DIRECTIONAL_LIGHT_NAME);
      NormalizeKeepsLength(direction);
      var directionalLight := new Lights.Light.Directional(counters, Normalize(direction), colour, intensity);
      ok := AddLight(directionalLight);
      if !ok {
        return;
      }
      CountDirectionalLight(directionalLight);
    }

    /** The last step of CreateDirectionalLight, once the light is in the
        table: it is counted. */
    method CountDirectionalLight(l: Lights.Light)
      requires LightTable() && numLights > 0 && lights[numLights - 1] == l && l.kind == Lights.DirectionalLight
      requires CountsFollow(ActiveLights()[..numLights - 1])
      modifies this
      ensures LightTable() && CountsFollow(ActiveLights())
      ensures directionalLightCount == old(directionalLightCount) + 1
      ensures numLights == old(numLights) && pointLightCount == old(pointLightCount) && pointLights == old(pointLights)
      ensures entities == old(entities) && skybox == old(skybox)
      ensures globalAmbientLight == old(globalAmbientLight) && enableBackfaceCulling == old(enableBackfaceCulling)
    {
      ghost var before := ActiveLights()[..numLights - 1];
      assert ActiveLights() == before + [l];
      AppendLight(before, l);
      directionalLightCount := directionalLightCount + 1;
    }

    /** GraphicsEngine::CreateEntity: a missing (or null) mesh fails an
        assertion; otherwise a new entity on that mesh is appended, its mesh
        name goes to the user interface, and the new last entity is returned.
        A mesh named like a light lands in the interface's light list. */
    method CreateEntity(meshName: string) returns (r: Result<Entities.Entity>)
      requires Valid()
      modifies this, uiController.entFreq, uiController.lightFreq
      ensures r.Ok? <==> meshManager.GetMesh(meshName).Ok?
      ensures r.Fatal? ==> entities == old(entities) && uiController.entFreq.strings == old(uiController.entFreq.strings)
      ensures r.Fatal? ==> uiController.lightFreq.strings == old(uiController.lightFreq.strings)
      ensures r.Ok? ==> fresh(r.value) && entities == old(entities) + [r.value] && r.value == entities[|entities| - 1]
      ensures r.Ok? ==> r.value.mesh == meshManager.GetMesh(meshName).value && r.value.shader == None
      ensures r.Ok? ==> r.value.position == ZERO && r.value.rotation == ZERO && r.value.scale == ONES
      ensures r.Ok? && meshName != UI.POINT_LIGHT_NAME && meshName != UI.DIRECTIONAL_LIGHT_NAME ==>
        uiController.entFreq.strings == old(uiController.entFreq.strings) + [meshName] &&
        uiController.lightFreq.strings == old(uiController.lightFreq.strings) &&
        (old(NamesMatchScene()) ==> NamesMatchScene())
      ensures r.Ok? && (meshName == UI.POINT_LIGHT_NAME || meshName == UI.DIRECTIONAL_LIGHT_NAME) ==>
        uiController.lightFreq.strings == old(uiController.lightFreq.strings) + [meshName] &&
        uiController.entFreq.strings == old(uiController.entFreq.strings) &&
        (old(NamesMatchScene()) ==> !NamesMatchScene())
      ensures Valid() && numLights == old(numLights) && pointLights == old(pointLights)
      ensures pointLightCount == old(pointLightCount) && directionalLightCount == old(directionalLightCount)
    {
      var mesh := meshManager.GetMesh(meshName);
      if mesh.Fatal? {
        return Fatal(mesh.reason);
      }
      var entity := new Entities.Entity(mesh.value);
      entities := entities + [entity];
      r := Ok(entities[|entities| - 1]);
      uiController.AddSceneObject(meshName);
    }

    /** GraphicsEngine::SetGlobalAmbientLight: an invalid colour fails an
        assertion; a valid one is stored and passed to the renderer. */
    method SetGlobalAmbientLight(ambient: Vec3) returns (ok: bool, cmds: seq<Cmd>)
      modifies this
      ensures ok <==> Lights.IsValidColour(ambient)
      ensures globalAmbientLight == if ok then ambient else old(globalAmbientLight)
      ensures ok && renderer.defaultShadersAssigned ==>
        cmds == [SetUniform(DEFAULT_SHADER_NAME_TEXTURE, "globalAmbientLight", Vec3Value(ambient)),
                 SetUniform(DEFAULT_SHADER_NAME_TEXTURELESS, "globalAmbientLight", Vec3Value(ambient))]
      ensures !ok || !renderer.defaultShadersAssigned ==> cmds == []
      ensures numLights == old(numLights) && entities == old(entities) && pointLights == old(pointLights)
      ensures pointLightCount == old(pointLightCount) && directionalLightCount == old(directionalLightCount)
      ensures skybox == old(skybox) && enableBackfaceCulling == old(enableBackfaceCulling)
    {
      if !Lights.IsValidColour(ambient) {
        return false, [];
      }
      globalAmbientLight := ambient;
      cmds := renderer.UpdateAmbientLight(globalAmbientLight);
      ok := true;
    }

    /** GraphicsEngine::SetSkybox: a replacement reuses the loaded shader and
        cube; the first skybox needs the "skybox" shader (an assertion) and
        the cube mesh. */
    method SetSkybox(cubemapDir: string) returns (ok: bool)
      requires Valid()
      modifies this, renderer
      ensures ok <==> old(skybox).Some? || SKYBOX_SHADER in shaderManager.shaders
      ensures skybox == (if ok then Some(cubemapDir) else old(skybox)) && Valid()
      ensures renderer.CurrentFlags() == old(renderer.CurrentFlags()).(skybox := skybox)
      ensures renderer.defaultShadersAssigned == old(renderer.defaultShadersAssigned)
      ensures numLights == old(numLights) && entities == old(entities) && pointLights == old(pointLights)
      ensures pointLightCount == old(pointLightCount) && directionalLightCount == old(directionalLightCount)
    {
      if skybox.None? {
        var shader := shaderManager.GetShaderByName(SKYBOX_SHADER);
        if shader.Fatal? {
          return false;
        }
      }
      skybox := Some(cubemapDir);
      renderer.SetSkybox(skybox);
      ok := true;
    }

    /** GraphicsEngine::GetMesh. */
    function GetMesh(name: string): (r: Result<Mesh>)
      reads this, meshManager
      ensures r.Ok? <==> name in meshManager.meshes && meshManager.meshes[name].Some?
    {
      meshManager.GetMesh(name)
    }

    /** GraphicsEngine::GetTexture: null for an unknown name. */
    function GetTexture(name: string): (r: Option<Texture>)
      reads this, textureManager
      ensures r.Some? <==> name in textureManager.textures
    {
      textureManager.GetTexture(name)
    }

    /** GraphicsEngine::GetShader: an unknown name fails an assertion. */
    function GetShader(name: string): (r: Result<ShaderProgram>)
      reads this, shaderManager
      ensures r.Ok? <==> name in shaderManager.shaders
    {
      shaderManager.GetShaderByName(name)
    }

    /** GraphicsEngine::OnWindowResized: the viewport and the camera's
        projection follow the new size. */
    method OnWindowResized(width: int, height: int) returns (cmds: seq<Cmd>)
      modifies camera
      ensures cmds == [SetViewport(width, height)]
      ensures camera.projectionMatrix == Cameras.Projection(width, height)
      ensures camera.position == old(camera.position) && camera.vel == old(camera.vel)
      ensures camera.pitch == old(camera.pitch) && camera.yaw == old(camera.yaw)
      ensures camera.CurrentFrame() == old(camera.CurrentFrame())
    {
      cmds := [SetViewport(width, height)];
      camera.CreateProjectionMatrix(width, height);
    }

    /** GraphicsEngine::ProcessMouseMotion: only while the window holds the
        cursor does a mouse move turn the camera, by the offset the window
        reports. */
    method ProcessMouseMotion(xpos: real, ypos: real)
      modifies window, camera
      ensures !old(window.IsUserFocused()) ==>
        camera.pitch == old(camera.pitch) && camera.yaw == old(camera.yaw) &&
        window.firstMouseMove == old(window.firstMouseMove) &&
        window.prevMousePosition == old(window.prevMousePosition)
      ensures old(window.IsUserFocused()) ==>
        var offset := Windows.MouseStep(old(window.firstMouseMove), old(window.prevMousePosition), Vec2(xpos, ypos)).0;
        camera.pitch == Clamp(Cameras.Turned(old(camera.pitch), -offset.y, camera.mouseSensitivity), -Cameras.PITCH_LIMIT, Cameras.PITCH_LIMIT) &&
        camera.yaw == Cameras.Turned(old(camera.yaw), offset.x, camera.mouseSensitivity) &&
        camera.Valid() && window.prevMousePosition == Vec2(xpos, ypos) && !window.firstMouseMove
      ensures camera.position == old(camera.position) && camera.vel == old(camera.vel)
      ensures window.cursorMode == old(window.cursorMode) && window.width == old(window.width)
      ensures window.height == old(window.height)
    {
      if window.IsUserFocused() {
        var offsetX, offsetY := window.CalculateMouseOffset(xpos, ypos);
        camera.UpdateOrientation(offsetX, offsetY);
      }
    }

    /** GraphicsEngine::ProcessInput: one CalculateVelocity call per held
        movement key, in the order W, A, S, D, Q, E, then one UpdatePosition. */
    method ProcessInput(held: set<int>, dt: real)
      modifies camera
      ensures camera.vel == ZERO
      ensures var v := Cameras.Accumulated(old(camera.vel), HeldMoves(held), old(camera.CurrentFrame()));
        camera.position == if v != ZERO then Add(old(camera.position), Scale(Normalize(v), dt)) else old(camera.position)
      ensures camera.CurrentFrame() == old(camera.CurrentFrame())
      ensures camera.pitch == old(camera.pitch) && camera.yaw == old(camera.yaw)
      ensures camera.projectionMatrix == old(camera.projectionMatrix)
    {
      ghost var f := camera.CurrentFrame();
      ghost var vel0 := camera.vel;
      ghost var moves: seq<Cameras.MoveDirection> := [];
      assert camera.vel == Add(vel0, Cameras.Total(moves, f));
      moves := MoveIfHeld(held, GLFW_KEY_W, Cameras.Forward, dt, f, vel0, moves);
      moves := MoveIfHeld(held, GLFW_KEY_A, Cameras.Left, dt, f, vel0, moves);
      moves := MoveIfHeld(held, GLFW_KEY_S, Cameras.Backward, dt, f, vel0, moves);
      moves := MoveIfHeld(held, GLFW_KEY_D, Cameras.Right, dt, f, vel0, moves);
      moves := MoveIfHeld(held, GLFW_KEY_Q, Cameras.Up, dt, f, vel0, moves);
      moves := MoveIfHeld(held, GLFW_KEY_E, Cameras.Down, dt, f, vel0, moves);
      assert moves == HeldMoves(held);
      Cameras.AccumulatedIsTotal(vel0, moves, f);
      camera.UpdatePosition(dt);
    }

    /** One `if (IsKeyPressed(key)) CalculateVelocity(d, dt)` of ProcessInput;
        `moves` are the calls made so far. */
    method MoveIfHeld(held: set<int>, key: int, d: Cameras.MoveDirection, dt: real,
                      ghost f: Cameras.Frame, ghost vel0: Vec3, ghost moves: seq<Cameras.MoveDirection>)
      returns (ghost moves': seq<Cameras.MoveDirection>)
      requires camera.CurrentFrame() == f && camera.vel == Add(vel0, Cameras.Total(moves, f))
      modifies camera
      ensures moves' == moves + IfHeld(held, key, d)
      ensures camera.CurrentFrame() == f && camera.vel == Add(vel0, Cameras.Total(moves', f))
      ensures camera.position == old(camera.position) && camera.pitch == old(camera.pitch) && camera.yaw == old(camera.yaw)
      ensures camera.projectionMatrix == old(camera.projectionMatrix)
    {
      moves' := moves;
      if key in held {
        camera.CalculateVelocity(d, dt);
        TotalSnoc(moves, d, f);
        moves' := moves + [d];
      }
    }

    /** GraphicsEngine::KeyCallback: ESC releases the cursor, F toggles
        wireframe, TAB the shadow-map view, C picks the next shadow map; each
        only on a press. Cycling with no lights takes a modulo by zero. */
    method KeyCallback(key: int, scancode: int, action: int, mods: int) returns (cmds: seq<Cmd>)
      requires Valid() && (KeyCommandOf(key, action) == CycleShadowMapView ==> numLights > 0)
      modifies window, renderer
      ensures Valid()
      ensures renderer.CurrentFlags() == FlagsAfter(old(renderer.CurrentFlags()), KeyCommandOf(key, action), numLights)
      ensures renderer.defaultShadersAssigned == old(renderer.defaultShadersAssigned)
      ensures cmds == if KeyCommandOf(key, action) == ToggleWireframe
        then Rendering.WireframeToggleCmds(renderer.wireframeModeEnabled, renderer.defaultClearColour) else []
      ensures KeyCommandOf(key, action) == ReleaseCursor ==>
        window.cursorMode == Windows.Normal &&
        window.firstMouseMove == (old(window.cursorMode) != Windows.Normal || old(window.firstMouseMove))
      ensures KeyCommandOf(key, action) != ReleaseCursor ==>
        window.cursorMode == old(window.cursorMode) && window.firstMouseMove == old(window.firstMouseMove)
      ensures window.width == old(window.width) && window.height == old(window.height)
      ensures window.cursorInWindow == old(window.cursorInWindow)
      ensures window.prevMousePosition == old(window.prevMousePosition)
    {
      cmds := [];
      if key == GLFW_KEY_ESCAPE && action == Windows.GLFW_PRESS {
        window.OnUserRequestedCursor();
      }
      if key == GLFW_KEY_F && action == Windows.GLFW_PRESS {
        cmds := renderer.ToggleWireframeRendering();
      }
      if key == GLFW_KEY_TAB && action == Windows.GLFW_PRESS {
        renderer.ToggleRenderShadowMapView();
      }
      if key == GLFW_KEY_C && action == Windows.GLFW_PRESS {
        renderer.NextShadowMapView(numLights);
      }
    }

    /** GraphicsEngine::AssignShaders: "phong" for every entity whose
        material has a texture, "phong-notexture" for every other; a shader
        that is not registered fails an assertion. Reading a material's flag
        before it was ever set is undefined. */
    method AssignShaders() returns (ok: bool)
      requires Valid() && forall k :: 0 <= k < |entities| ==> entities[k].material.hasTextureSet
      modifies set k | 0 <= k < |entities| :: entities[k]
      ensures ok <==> forall k :: 0 <= k < |entities| ==>
        ShaderFor(entities[k].material.hasTexture) in shaderManager.shaders
      ensures ok ==> forall k :: 0 <= k < |entities| ==>
        entities[k].shader == Some(ShaderFor(entities[k].material.HasTexture()))
      ensures forall k :: 0 <= k < |entities| ==>
        entities[k].position == old(entities[k].position) && entities[k].rotation == old(entities[k].rotation) &&
        entities[k].scale == old(entities[k].scale)
    {
      var i := 0;
      while i < |entities|
        invariant 0 <= i <= |entities|
        invariant forall k :: 0 <= k < i ==>
          ShaderFor(entities[k].material.hasTexture) in shaderManager.shaders &&
          entities[k].shader == Some(ShaderFor(entities[k].material.hasTexture))
        invariant forall k :: 0 <= k < |entities| ==>
          entities[k].position == old(entities[k].position) && entities[k].rotation == old(entities[k].rotation) &&
          entities[k].scale == old(entities[k].scale)
      {
        var entity := entities[i];
        var mat := entity.GetMaterial();
        var name := if mat.HasTexture() then DEFAULT_SHADER_NAME_TEXTURE else DEFAULT_SHADER_NAME_TEXTURELESS;
        var shader := GetShader(name);
        if shader.Fatal? {
          return false;
        }
        entity.SetShader(Some(name));
        i := i + 1;
      }
      ok := true;
    }

    /** The set-up part of GraphicsEngine::Run before the main loop: shader
        assignment, the renderer's one-time uniforms, and the user
        interface's check that it has a name for every entity and light. */
    method BeforeMainLoop() returns (ok: bool, cmds: seq<Cmd>)
      requires Valid() && forall k :: 0 <= k < |entities| ==> entities[k].material.hasTextureSet
      modifies set k | 0 <= k < |entities| :: entities[k]
      modifies renderer, uiController
      ensures ok ==> forall k :: 0 <= k < |entities| ==>
        entities[k].shader == Some(ShaderFor(entities[k].material.HasTexture()))
      ensures ok ==> renderer.defaultShadersAssigned && renderer.renderPointLights == (|pointLights| > 0)
      ensures ok ==> cmds == Rendering.BeforeFirstRenderCmds(globalAmbientLight, pointLightCount, directionalLightCount, numLights)
      ensures ok <==> (old(NamesMatchScene()) &&
        (forall k :: 0 <= k < |entities| ==> ShaderFor(entities[k].material.hasTexture) in shaderManager.shaders) &&
        Rendering.DEBUG_QUAD_SHADER in shaderManager.shaders && DEFAULT_SHADER_NAME_TEXTURE in shaderManager.shaders &&
        DEFAULT_SHADER_NAME_TEXTURELESS in shaderManager.shaders)
    {
      cmds := [];
      ok := AssignShaders();
      if !ok {
        return;
      }
      ok, cmds := renderer.BeforeFirstRender(shaderManager.shaders.Keys, globalAmbientLight, |pointLights|,
                                             pointLightCount, directionalLightCount, numLights);
      if !ok {
        return;
      }
      ok := uiController.BeforeFirstRender(|entities|, numLights);
    }

    /** GraphicsEngine::~GraphicsEngine: every entity is deleted, then every
        light in the table; point lights belong to the table and are not
        deleted again. */
    method Destroy() returns (freedEntities: seq<Entities.Entity>, freedLights: seq<Lights.Light>)
      requires Valid()
      ensures freedEntities == entities && DistinctEntities(freedEntities)
      ensures |freedLights| == numLights && forall k :: 0 <= k < numLights ==> freedLights[k] == lights[k]
      ensures forall i, j :: 0 <= i < j < |freedLights| ==> freedLights[i] != freedLights[j]
      ensures forall p :: p in pointLights ==> p in freedLights
    {
      freedEntities := [];
      var e := 0;
      while e < |entities|
        invariant 0 <= e <= |entities| && freedEntities == entities[..e]
      {
        freedEntities := freedEntities + [entities[e]];
        e := e + 1;
      }
      assert entities[..e] == entities;
      freedLights := [];
      var i := 0;
      while i < numLights
        invariant 0 <= i <= numLights && |freedLights| == i
        invariant forall k :: 0 <= k < i ==> freedLights[k] == lights[k]
      {
        freedLights := freedLights + [lights[i]];
        i := i + 1;
      }
      forall p | p in pointLights
        ensures p in freedLights
      {
        var k :| 0 <= k < numLights && ActiveLights()[k] == p;
        assert freedLights[k] == p;
      }
    }
  }
}
