/** Lights (Light.h, DirectionalLight.cpp/.h, PointLight.cpp/.h).
    The C++ hierarchy Light <- PointLight | DirectionalLight becomes one class
    whose immutable `kind` says which subclass an object is; the fields of the
    other subclass are unused. The per-subclass static id counters are the
    fields of a LightCounters object shared by everything that creates lights. */
module Lights {
  import opened Wrappers
  import opened Glm
  import opened Text
  import opened Gpu

  /** Ambient term as a fraction of the light's colour (Light::AMBIENT_FACTOR). */
  const AMBIENT_FACTOR: real := 0.1

  const DIRECTIONAL_SIZE: real := 7.0
  const DIRECTIONAL_NEAR_PLANE: real := 0.1
  const DIRECTIONAL_FAR_PLANE: real := 12.0
  const DIRECTIONAL_SHADOW_BIAS: real := 0.001
  const DIRECTIONAL_POSITIONAL_OFFSET: real := 6.0

  const POINT_FOV: real := 60.0
  const POINT_NEAR_PLANE: real := 0.1
  const POINT_FAR_PLANE: real := 10.0
  const POINT_SHADOW_BIAS: real := 0.000075

  const WORLD_ORIGIN: Vec3 := ZERO
  const LIGHT_UP: Vec3 := Vec3(0.0, 1.0, 0.0)

  /** Light::IsValidColour: every channel in [0, 1], both ends included. */
  predicate IsValidColour(c: Vec3) {
    0.0 <= c.x <= 1.0 && 0.0 <= c.y <= 1.0 && 0.0 <= c.z <= 1.0
  }

  predicate IsValidIntensity(i: real) { 0.0 <= i <= 1.0 }

  datatype Attenuation = Attenuation(quadratic: real, linear: real, constant: real)

  const DEFAULT_ATTENUATION: Attenuation := Attenuation(0.07, 0.14, 1.0)

  datatype LightKind = PointLight | DirectionalLight

  /** The contents of a ShadowData object. */
  datatype ShadowState = ShadowState(projMatrix: Mat4, viewMatrix: Mat4, nearPlane: real,
                                     farPlane: real, isOrthographic: bool, shadowBias: real)

  /** ShadowData::GetLightMatrix: recomputed from the current matrices on every call. */
  function LightMatrix(s: ShadowState): Mat4 { Mul(s.projMatrix, s.viewMatrix) }

  class ShadowData {
    var projMatrix: Mat4
    var viewMatrix: Mat4
    var nearPlane: real
    var farPlane: real
    var isOrthographic: bool
    var shadowBias: real

    constructor (proj: Mat4, view: Mat4, near: real, far: real, bias: real, isOrtho: bool)
      ensures State() == ShadowState(proj, view, near, far, isOrtho, bias)
    {
      projMatrix, viewMatrix := proj, view;
      nearPlane, farPlane := near, far;
      isOrthographic, shadowBias := isOrtho, bias;
    }

    function State(): ShadowState
      reads this
    {
      ShadowState(projMatrix, viewMatrix, nearPlane, farPlane, isOrthographic, shadowBias)
    }

    function GetLightMatrix(): Mat4
      reads this
    {
      LightMatrix(State())
    }

    /** Replaces the view matrix only; the next light matrix uses it. */
    method UpdateLightViewMatrix(view: Mat4)
      modifies this
      ensures State() == old(State()).(viewMatrix := view)
      ensures GetLightMatrix() == Mul(projMatrix, view)
    {
      viewMatrix := view;
    }
  }

  /** The static id counters of PointLight and DirectionalLight. */
  class LightCounters {
    var points: int
    var directionals: int

    constructor ()
      ensures points == 0 && directionals == 0
    {
      points, directionals := 0, 0;
    }
  }

  /** The subclass-specific part of a light. */
  datatype Shape = PointShape(position: Vec3, attenuation: Attenuation) | DirectionalShape(direction: Vec3)

  /** The contents of a Light object, with its shadow data if it has any. */
  datatype LightState = LightState(id: int, ambient: Vec3, diffuse: Vec3, specular: Vec3,
                                   intensity: real, shape: Shape, shadow: Option<ShadowState>)

  /** Light::GetAmbient / GetDiffuse / GetSpecular: the terms scaled by the intensity. */
  function Ambient(s: LightState): Vec3 { Scale(s.ambient, s.intensity) }
  function Diffuse(s: LightState): Vec3 { Scale(s.diffuse, s.intensity) }
  function Specular(s: LightState): Vec3 { Scale(s.specular, s.intensity) }

  /** The three lighting terms SetColour derives from one colour. */
  predicate TermsFromColour(s: LightState, c: Vec3) {
    s.ambient == Scale(c, AMBIENT_FACTOR) && s.diffuse == c && s.specular == c
  }

  lemma NonNegativeProduct(a: real, b: real)
    requires 0.0 <= a && 0.0 <= b
    ensures 0.0 <= a * b
  {
  }

  lemma ProductInUnit(a: real, b: real)
    requires 0.0 <= a <= 1.0 && 0.0 <= b <= 1.0
    ensures 0.0 <= a * b <= 1.0
  {
    NonNegativeProduct(a, b);
    NonNegativeProduct(a, 1.0 - b);
    assert a * (1.0 - b) == a - a * b;
  }

  /** A light built from a valid colour and intensity sends valid colours to
      the shaders: every intensity-scaled term stays in [0, 1]. */
  lemma ScaledTermsAreColours(s: LightState, c: Vec3)
    requires TermsFromColour(s, c) && IsValidColour(c) && IsValidIntensity(s.intensity)
    ensures IsValidColour(Ambient(s)) && IsValidColour(Diffuse(s)) && IsValidColour(Specular(s))
    ensures Diffuse(s) == Scale(c, s.intensity)
  {
    ProductInUnit(s.intensity, c.x);
    ProductInUnit(s.intensity, c.y);
    ProductInUnit(s.intensity, c.z);
    ProductInUnit(s.intensity, AMBIENT_FACTOR * c.x);
    ProductInUnit(s.intensity, AMBIENT_FACTOR * c.y);
    ProductInUnit(s.intensity, AMBIENT_FACTOR * c.z);
    ProductInUnit(AMBIENT_FACTOR, c.x);
    ProductInUnit(AMBIENT_FACTOR, c.y);
    ProductInUnit(AMBIENT_FACTOR, c.z);
  }

  /** The up vector of a directional light's view: the world up, except for the
      two directions colinear with it. */
  function LightUp(dir: Vec3): Vec3 {
    if dir == Vec3(0.0, -1.0, 0.0) then Vec3(0.0, 0.0, -1.0)
    else if dir == Vec3(0.0, 1.0, 0.0) then Vec3(0.0, 0.0, 1.0)
    else LIGHT_UP
  }

  function SquaredLength(v: Vec3): real { v.x * v.x + v.y * v.y + v.z * v.z }

  /** For any direction, the chosen up vector is colinear with it exactly
      when the direction is vertical but neither (0, 1, 0) nor (0, -1, 0):
      the special cases catch only the two exact unit vectors. */
  lemma LightUpColinearExactly(dir: Vec3)
    ensures Cross(dir, LightUp(dir)) == ZERO <==>
      (dir.x == 0.0 && dir.z == 0.0 && dir != Vec3(0.0, -1.0, 0.0) && dir != Vec3(0.0, 1.0, 0.0))
  {
    if dir == Vec3(0.0, -1.0, 0.0) {
      assert Cross(dir, LightUp(dir)).x == 1.0;
    } else if dir == Vec3(0.0, 1.0, 0.0) {
      assert Cross(dir, LightUp(dir)).x == 1.0;
    } else {
      assert Cross(dir, LightUp(dir)) == Vec3(-dir.z, 0.0, dir.x);
    }
  }

  /** For a unit direction the chosen up vector is never colinear with it, so
      lookAt always gets a well-defined basis. */
  lemma LightUpNotColinear(dir: Vec3)
    requires SquaredLength(dir) == 1.0
    ensures Cross(dir, LightUp(dir)) != ZERO
  {
    if dir != Vec3(0.0, -1.0, 0.0) && dir != Vec3(0.0, 1.0, 0.0) && dir.x == 0.0 && dir.z == 0.0 {
      UnitSquare(dir.y);
    }
  }

  lemma ZeroProduct(p: real, q: real)
    requires p * q == 0.0
    ensures p == 0.0 || q == 0.0
  {
    if p != 0.0 {
      assert q == (p * q) / p;
    }
  }

  lemma UnitSquare(y: real)
    requires y * y == 1.0
    ensures y == 1.0 || y == -1.0
  {
    assert (y - 1.0) * (y + 1.0) == y * y - 1.0;
    ZeroProduct(y - 1.0, y + 1.0);
  }

  /** The eye of a directional light's view sits OFFSET units back along the
      direction, looking one unit along it. */
  function DirectionalEye(dir: Vec3): Vec3 { Scale(Neg(dir), DIRECTIONAL_POSITIONAL_OFFSET) }

  /** ::CreateViewMatrix (DirectionalLight.cpp); the zero vector fails its assertion. */
  function CreateViewMatrix(dir: Vec3): (r: Result<Mat4>)
    ensures r.Ok? <==> HasPositiveLength(dir)
    ensures r.Ok? ==> r.value == LookAt(DirectionalEye(dir), Add(DirectionalEye(dir), dir), LightUp(dir))
  {
    if !HasPositiveLength(dir) then Fatal("The zero vector is not a valid direction vector!")
    else
      var eye := DirectionalEye(dir);
      Ok(LookAt(eye, Add(eye, dir), LightUp(dir)))
  }

  /** The target is exactly one direction-length in front of the eye, and the eye
      is behind the origin: eye = -6 * dir. */
  lemma DirectionalViewGeometry(dir: Vec3)
    ensures Sub(Add(DirectionalEye(dir), dir), DirectionalEye(dir)) == dir
    ensures Add(DirectionalEye(dir), Scale(dir, DIRECTIONAL_POSITIONAL_OFFSET)) == ZERO
  {
  }

  /** DirectionalLight::CreateShadowData for an already checked direction. */
  function DirectionalShadow(view: Mat4): ShadowState {
    ShadowState(Ortho(-DIRECTIONAL_SIZE, DIRECTIONAL_SIZE, -DIRECTIONAL_SIZE, DIRECTIONAL_SIZE,
                      DIRECTIONAL_NEAR_PLANE, DIRECTIONAL_FAR_PLANE), view, DIRECTIONAL_NEAR_PLANE, DIRECTIONAL_FAR_PLANE,
                true, DIRECTIONAL_SHADOW_BIAS)
  }

  /** The view a point light's shadow uses: from its position towards the origin. */
  function PointView(position: Vec3): Mat4 { LookAt(position, WORLD_ORIGIN, LIGHT_UP) }

  /** PointLight::CreateShadowData. */
  function PointShadow(position: Vec3, aspectRatio: real): ShadowState {
    ShadowState(Perspective(Radians(POINT_FOV), aspectRatio, POINT_NEAR_PLANE, POINT_FAR_PLANE),
                PointView(position), POINT_NEAR_PLANE, POINT_FAR_PLANE, false, POINT_SHADOW_BIAS)
  }

  /** Name of a light's uniform: `pointLights[id]...` or `directionalLights[id]...`. */
  function UniformName(s: LightState, field: string): string {
    Indexed(if s.shape.PointShape? then "pointLights" else "directionalLights", s.id, field)
  }

  const POINT_FIELDS: seq<string> := [".light.shadowIndex", ".light.ambient", ".light.diffuse",
    ".light.specular", ".position", ".attenuation.quadratic", ".attenuation.linear", ".attenuation.constant"]
  const DIRECTIONAL_FIELDS: seq<string> := [".light.shadowIndex", ".light.ambient", ".light.diffuse",
    ".light.specular", ".direction"]

  function Fields(s: LightState): seq<string> {
    if s.shape.PointShape? then POINT_FIELDS else DIRECTIONAL_FIELDS
  }

  /** Light::SetUniforms (PointLight.cpp, DirectionalLight.cpp), in the order written.
      The uniform array slot is the light's id; the shadow index is the argument. */
  function SetUniforms(s: LightState, shader: string, shadowIndex: int): (r: seq<Cmd>)
    ensures |r| == |Fields(s)|
    ensures forall k :: 0 <= k < |r| ==> r[k].SetUniform? && r[k].shader == shader && r[k].name == UniformName(s, Fields(s)[k])
    ensures r[0].value == IntValue(shadowIndex) && r[1].value == Vec3Value(Ambient(s))
    ensures r[2].value == Vec3Value(Diffuse(s)) && r[3].value == Vec3Value(Specular(s))
    ensures r[4].value == if s.shape.PointShape? then Vec3Value(s.shape.position) else Vec3Value(s.shape.direction)
    ensures s.shape.PointShape? ==>
      r[5].value == FloatValue(s.shape.attenuation.quadratic) && r[6].value == FloatValue(s.shape.attenuation.linear) &&
      r[7].value == FloatValue(s.shape.attenuation.constant)
  {
    var common := [SetUniform(shader, UniformName(s, ".light.shadowIndex"), IntValue(shadowIndex)),
                   SetUniform(shader, UniformName(s, ".light.ambient"), Vec3Value(Ambient(s))),
                   SetUniform(shader, UniformName(s, ".light.diffuse"), Vec3Value(Diffuse(s))),
                   SetUniform(shader, UniformName(s, ".light.specular"), Vec3Value(Specular(s)))];
    match s.shape
    case PointShape(position, att) =>
      common + [SetUniform(shader, UniformName(s, ".position"), Vec3Value(position)),
                SetUniform(shader, UniformName(s, ".attenuation.quadratic"), FloatValue(att.quadratic)),
                SetUniform(shader, UniformName(s, ".attenuation.linear"), FloatValue(att.linear)),
                SetUniform(shader, UniformName(s, ".attenuation.constant"), FloatValue(att.constant))]
    case DirectionalShape(direction) =>
      common + [SetUniform(shader, UniformName(s, ".direction"), Vec3Value(direction))]
  }

  /** What SetUniforms leaves in the shader: every field of the light under its
      own name, holding the shadow index, the three colour terms, the
      position or direction and, for a point light, the attenuation. */
  lemma SetUniformsValues(s: LightState, shader: string, shadowIndex: int)
    ensures var u := Uniforms(SetUniforms(s, shader, shadowIndex), shader);
      && (forall k :: 0 <= k < |Fields(s)| ==> UniformName(s, Fields(s)[k]) in u)
      && u[UniformName(s, ".light.shadowIndex")] == IntValue(shadowIndex)
      && u[UniformName(s, ".light.ambient")] == Vec3Value(Ambient(s))
      && u[UniformName(s, ".light.diffuse")] == Vec3Value(Diffuse(s))
      && u[UniformName(s, ".light.specular")] == Vec3Value(Specular(s))
      && (s.shape.PointShape? ==> u[UniformName(s, ".position")] == Vec3Value(s.shape.position))
      && (s.shape.PointShape? ==>
            u[UniformName(s, ".attenuation.quadratic")] == FloatValue(s.shape.attenuation.quadratic) &&
            u[UniformName(s, ".attenuation.linear")] == FloatValue(s.shape.attenuation.linear) &&
            u[UniformName(s, ".attenuation.constant")] == FloatValue(s.shape.attenuation.constant))
      && (s.shape.DirectionalShape? ==> u[UniformName(s, ".direction")] == Vec3Value(s.shape.direction))
  {
    var cmds := SetUniforms(s, shader, shadowIndex);
    UniformNamesDistinct(s);
    forall k | 0 <= k < |Fields(s)|
      ensures UniformName(s, Fields(s)[k]) in Uniforms(cmds, shader)
      ensures Uniforms(cmds, shader)[UniformName(s, Fields(s)[k])] == cmds[k].value
    {
      LastWriteWins(cmds, shader, k);
    }
    assert Fields(s)[0] == ".light.shadowIndex" && Fields(s)[1] == ".light.ambient";
    assert Fields(s)[2] == ".light.diffuse" && Fields(s)[3] == ".light.specular";
    assert Fields(s)[4] == (if s.shape.PointShape? then ".position" else ".direction");
    if s.shape.PointShape? {
      assert Fields(s)[5] == ".attenuation.quadratic" && Fields(s)[6] == ".attenuation.linear";
      assert Fields(s)[7] == ".attenuation.constant";
    }
  }

  /** Each field of a light lands in a uniform of its own. */
  lemma UniformNamesDistinct(s: LightState)
    ensures forall i, j :: 0 <= i < j < |Fields(s)| ==> UniformName(s, Fields(s)[i]) != UniformName(s, Fields(s)[j])
  {
    var base := if s.shape.PointShape? then "pointLights" else "directionalLights";
    forall i, j | 0 <= i < j < |Fields(s)|
      ensures UniformName(s, Fields(s)[i]) != UniformName(s, Fields(s)[j])
    {
      IndexedInjective(base, s.id, Fields(s)[i], s.id, Fields(s)[j]);
    }
  }

  /** Two lights of the same kind with different ids, or of different kinds,
      never write the same uniform: the ids keep the slots apart. */
  lemma UniformNamesDisjoint(a: LightState, b: LightState, f: string, g: string)
    requires a.shape.PointShape? != b.shape.PointShape? || a.id != b.id
    ensures UniformName(a, f) != UniformName(b, g)
  {
    var baseA := if a.shape.PointShape? then "pointLights" else "directionalLights";
    var baseB := if b.shape.PointShape? then "pointLights" else "directionalLights";
    if baseA == baseB {
      IndexedInjective(baseA, a.id, f, b.id, g);
    } else {
      assert UniformName(a, f)[0] != UniformName(b, g)[0];
    }
  }

  /** Setting another light's uniforms after this light's leaves this light's
      values in place. */
  lemma SetUniformsDoNotClash(a: LightState, b: LightState, shader: string, i: int, j: int, name: string)
    requires a.shape.PointShape? != b.shape.PointShape? || a.id != b.id
    requires name in Uniforms(SetUniforms(a, shader, i), shader)
    ensures var both := Uniforms(SetUniforms(a, shader, i) + SetUniforms(b, shader, j), shader);
      name in both && both[name] == Uniforms(SetUniforms(a, shader, i), shader)[name]
  {
    var ca, cb := SetUniforms(a, shader, i), SetUniforms(b, shader, j);
    assert forall k :: 0 <= k < |cb| ==> !Writes(cb[k], shader, name) by {
      WrittenNames(ca, shader, name);
      var m :| 0 <= m < |ca| && Writes(ca[m], shader, name);
      forall k | 0 <= k < |cb|
        ensures !Writes(cb[k], shader, name)
      {
        UniformNamesDisjoint(a, b, Fields(a)[m], Fields(b)[k]);
      }
    }
    LaterSilenceKeeps(ca, cb, shader, name);
  }

  class Light {
    const kind: LightKind
    var shadowData: ShadowData?
    var ambient: Vec3
    var diffuse: Vec3
    var specular: Vec3
    var intensity: real
    var id: int
    /** PointLight only */
    var position: Vec3
    var attenuation: Attenuation
    /** DirectionalLight only */
    var direction: Vec3

    /** PointLight() = default: Light() with colour (0,0,0) and intensity 0,
        id 0 and no shadow data; the point counter is not advanced and the
        position and attenuation are left uninitialised. */
    constructor DefaultPoint()
      ensures kind == PointLight && shadowData == null && id == 0
      ensures ambient == ZERO && diffuse == ZERO && specular == ZERO && intensity == 0.0
    {
      kind := PointLight;
      shadowData := null;
      id := 0;
      ambient, diffuse, specular := Scale(ZERO, AMBIENT_FACTOR), ZERO, ZERO;
      intensity := Clamp(0.0, 0.0, 1.0);
    }

    /** PointLight(position, colour, intensity, attenuation): takes the next point id. */
    constructor Point(counters: LightCounters, position: Vec3, colour: Vec3, intensity: real, attenuation: Attenuation)
      requires IsValidColour(colour) && IsValidIntensity(intensity)
      modifies counters
      ensures kind == PointLight && shadowData == null
      ensures TermsFromColour(State(), colour) && this.intensity == intensity
      ensures this.position == position && this.attenuation == attenuation
      ensures id == old(counters.points)
      ensures counters.points == old(counters.points) + 1 && counters.directionals == old(counters.directionals)
    {
      kind := PointLight;
      shadowData := null;
      ambient, diffuse, specular := Scale(colour, AMBIENT_FACTOR), colour, colour;
      this.intensity := Clamp(intensity, 0.0, 1.0);
      this.position, this.attenuation := position, attenuation;
      id := counters.points;
      new;
      counters.points := counters.points + 1;
    }

    /** DirectionalLight(direction, colour, intensity): stores the normalised
        direction, takes the next directional id and creates the orthographic
        shadow data looking along the direction. */
    constructor Directional(counters: LightCounters, dir: Vec3, colour: Vec3, intensity: real)
      requires IsValidColour(colour) && IsValidIntensity(intensity) && HasPositiveLength(dir)
      modifies counters
      ensures kind == DirectionalLight && direction == Normalize(dir)
      ensures TermsFromColour(State(), colour) && this.intensity == intensity
      ensures id == old(counters.directionals)
      ensures counters.directionals == old(counters.directionals) + 1 && counters.points == old(counters.points)
      ensures shadowData != null && fresh(shadowData)
      ensures CreateViewMatrix(direction).Ok?
      ensures shadowData.State() == DirectionalShadow(CreateViewMatrix(direction).value)
    {
      kind := DirectionalLight;
      ambient, diffuse, specular := Scale(colour, AMBIENT_FACTOR), colour, colour;
      this.intensity := Clamp(intensity, 0.0, 1.0);
      var unit := Normalize(dir);
      direction := unit;
      id := counters.directionals;
      NormalizeKeepsLength(dir);
      var view := CreateViewMatrix(unit).value;
      var s := DirectionalShadow(view);
      shadowData := new ShadowData(s.projMatrix, s.viewMatrix, s.nearPlane, s.farPlane, s.shadowBias, s.isOrthographic);
      new;
      counters.directionals := counters.directionals + 1;
    }

    /** Light::GetColour: the diffuse term, without the intensity. */
    function GetColour(): Vec3
      reads this
    {
      diffuse
    }

    function State(): LightState
      reads this, shadowData
    {
      LightState(id, ambient, diffuse, specular, intensity,
                 if kind == PointLight then PointShape(position, attenuation) else DirectionalShape(direction),
                 if shadowData == null then None else Some(shadowData.State()))
    }

    /** Light::SetColour: an invalid colour fails the assertion (ok is false and
        nothing changes); otherwise ambient = 0.1 * c and diffuse = specular = c. */
    method SetColour(c: Vec3) returns (ok: bool)
      modifies this
      ensures ok <==> IsValidColour(c)
      ensures ok ==> ambient == Scale(c, AMBIENT_FACTOR) && diffuse == c && specular == c && GetColour() == c
      ensures !ok ==> ambient == old(ambient) && diffuse == old(diffuse) && specular == old(specular)
      ensures intensity == old(intensity) && id == old(id) && shadowData == old(shadowData)
      ensures position == old(position) && attenuation == old(attenuation) && direction == old(direction)
    {
      if !IsValidColour(c) {
        return false;
      }
      ambient := Scale(c, AMBIENT_FACTOR);
      diffuse := c;
      specular := c;
      return true;
    }

    /** Light::SetIntensity: outside [0, 1] the assertion fails; otherwise the
        clamped value, which is the argument itself, is stored. */
    method SetIntensity(i: real) returns (ok: bool)
      modifies this
      ensures ok <==> IsValidIntensity(i)
      ensures intensity == (if ok then i else old(intensity)) && GetColour() == old(GetColour())
      ensures ambient == old(ambient) && diffuse == old(diffuse) && specular == old(specular)
      ensures id == old(id) && shadowData == old(shadowData)
      ensures position == old(position) && attenuation == old(attenuation) && direction == old(direction)
    {
      if !IsValidIntensity(i) {
        return false;
      }
      intensity := Clamp(i, 0.0, 1.0);
      return true;
    }

    /** DirectionalLight::SetDirection: the zero vector is ignored; any other
        vector is normalised and the shadow view follows it. */
    method SetDirection(v: Vec3)
      requires kind == DirectionalLight && shadowData != null
      modifies this, shadowData
      ensures shadowData == old(shadowData)
      ensures HasPositiveLength(v) ==>
        (direction == Normalize(v) && CreateViewMatrix(direction).Ok? &&
         shadowData.State() == old(shadowData.State()).(viewMatrix := CreateViewMatrix(direction).value))
      ensures !HasPositiveLength(v) ==> direction == old(direction) && shadowData.State() == old(shadowData.State())
      ensures ambient == old(ambient) && diffuse == old(diffuse) && specular == old(specular)
      ensures intensity == old(intensity) && id == old(id)
      ensures position == old(position) && attenuation == old(attenuation)
    {
      if HasPositiveLength(v) {
        direction := Normalize(v);
        NormalizeKeepsLength(v);
        shadowData.UpdateLightViewMatrix(CreateViewMatrix(direction).value);
      }
    }

    /** PointLight::SetPosition: the shadow view, if any, looks from the new
        position at the origin. */
    method SetPosition(p: Vec3)
      requires kind == PointLight
      modifies this, shadowData
      ensures position == p && shadowData == old(shadowData)
      ensures shadowData != null ==> shadowData.State() == old(shadowData.State()).(viewMatrix := PointView(p))
      ensures ambient == old(ambient) && diffuse == old(diffuse) && specular == old(specular)
      ensures intensity == old(intensity) && id == old(id) && attenuation == old(attenuation)
    {
      position := p;
      if shadowData != null {
        shadowData.UpdateLightViewMatrix(PointView(p));
      }
    }

    /** PointLight::CreateShadowData: a perspective shadow looking from the
        light's position at the origin. */
    method CreateShadowData(aspectRatio: real)
      requires kind == PointLight
      modifies this
      ensures shadowData != null && fresh(shadowData)
      ensures shadowData.State() == PointShadow(position, aspectRatio)
      ensures position == old(position) && attenuation == old(attenuation)
      ensures ambient == old(ambient) && diffuse == old(diffuse) && specular == old(specular)
      ensures intensity == old(intensity) && id == old(id)
    {
      var s := PointShadow(position, aspectRatio);
      shadowData := new ShadowData(s.projMatrix, s.viewMatrix, s.nearPlane, s.farPlane, s.shadowBias, s.isOrthographic);
    }

    /** PointLight::SetDiffuse: stored as given, without validation. */
    method SetDiffuse(d: Vec3)
      requires kind == PointLight
      modifies this
      ensures diffuse == d && GetColour() == d
      ensures ambient == old(ambient) && specular == old(specular) && intensity == old(intensity)
      ensures id == old(id) && shadowData == old(shadowData) && position == old(position)
      ensures attenuation == old(attenuation)
    {
      diffuse := d;
    }

    /** PointLight::SetSpecular: stored as given, without validation. */
    method SetSpecular(s: Vec3)
      requires kind == PointLight
      modifies this
      ensures specular == s
      ensures ambient == old(ambient) && diffuse == old(diffuse) && intensity == old(intensity)
      ensures id == old(id) && shadowData == old(shadowData) && position == old(position)
      ensures attenuation == old(attenuation)
    {
      specular := s;
    }
  }
}
