# 3D-Graphics-Engine core, modelled in Dafny

This project models the logic under the OpenGL plumbing of a small C++ real-time renderer. It proves properties of that model. Every `.dfy` file is one module, and modules follow the engine's classes:

- **Lights and shadows** (`lights.dfy`): `Light` is one class with a kind, point or directional. It covers colour validation, the ambient 0.1 × colour rule and intensity scaling. Shadow descriptors hold a light matrix = projection × view. The directional light's eye, target and up-vector rule is modelled, along with the per-class id counters and the exact uniform names each light writes.
- **Scene container** (`engine.dfy`): `GraphicsEngine` has a light table of `MAX_LIGHTS` = 4 slots with running counts, plus the entity and point-light lists. It covers shader assignment by texture presence, key dispatch, and resizing and mouse input. The set-up before the main loop and destruction ownership are modelled too.
- **Frame orchestration** (`renderer.dfy`): every GL effect is a command (`Gpu.Cmd`), and a frame is the sequence of commands `Renderer::Render` issues. The uniform state of a shader is the fold of its `SetUniform` commands into a map. The proofs cover:
  - shadow passes in light order, all before the on-screen work;
  - wireframe mode as an early exit;
  - the per-entity and per-light uniforms;
  - the shadow-map view;
  - the cycling view index;
  - the bias matrix.
- **Camera** (`camera.dfy`): the velocity accumulator and its unconditional reset, pitch integration with a clamp to [-89, 89], and the height-0 guard of the projection.
- **Meshes**:
  - `mesh_creator.dfy`: the cube, pyramid and plane data, and the triangle-strip grid with primitive-restart markers.
  - `mesh_util.dfy`: the first-visit vertex-normal bookkeeping.
  - `mesh_loader.dfy`: the Wavefront OBJ subset parser, over the file's lines.
  - `debug.dfy`: the normal-line interleaving.
  - `plane.dfy`: plane centring.
- **Registries** (`mesh_manager.dfy`, `texture_manager.dfy`, `shader_manager.dfy`): string-keyed maps, each with its own policy for duplicates and missing keys.
- **User interface** (`ui_controller.dfy`): `StringCounter`'s "(k)" labels, scene-object routing, colour clamping and the C-string copies.
- **Small state machines**: `window.dfy` (mouse offsets, cursor capture), and `entity.dfy` and `material.dfy` (setters, binding).
- **Supporting modules**:
  - `glm.dfy`: vectors are triples of reals; matrices, `Normalize`, `Sin` and `Cos` are uninterpreted.
  - `gpu.dfy`: the command type and uniform folding.
  - `assets.dfy`, `constants.dfy`, `registries.dfy` (destruction order), `text.dfy` (`std::to_string`), `wrappers.dfy` (`Option`, `Result`).

An assertion in the source that fails is a `Fatal` result, or an `ok` output that is false. Undefined behaviour usually becomes a `requires`; those are listed under "Left out". One exception: `MeshLoader.AddFaceVertex` models an out-of-range read of the position, texture-coordinate or normal list (MeshLoader.cpp:122-124) as a `Fatal` result, so the loader is total over every file.

Three quirks are kept as written:
- the point-light shadow view always looks at the origin;
- light ids are counted per kind;
- the point-light shadow aspect ratio is an integer quotient, so the default 1280 × 720 window gets aspect 1.

Some properties state what the source does not promise, written as-is:
- UI.LabelsCanCollide shows that `StringCounter` labels are not unique across names.
- `MeshCreator.RestartCollidesAt255` shows that at grid size 255 the last vertex index of the grid is 0xFFFF, the restart marker itself.

## Model

| member | source | states |
|---|---|---|
| Glm.Clamp | 3d-graphics-engine/Light.h:117 | the result lies in [lo, hi], is x when x does, and is the nearer bound otherwise |
| Glm.ScalePositiveKeepsNonZero | 3d-graphics-engine/DirectionalLight.cpp:58-61 | scaling by a positive factor neither creates nor removes a zero vector |
| Glm.NormalizeKeepsLength | 3d-graphics-engine/DirectionalLight.cpp:26-29 | a normalised vector has positive length exactly when the original had |
| Gpu.UniformsAppend | 3d-graphics-engine/ShaderProgram.cpp:22-70 | running two command lists in turn merges their uniform writes, the later list overriding the earlier |
| Gpu.UniformsSnoc | 3d-graphics-engine/ShaderProgram.cpp:22-70 | one more write to a shader sets exactly that uniform |
| Gpu.LaterSilenceKeeps | 3d-graphics-engine/ShaderProgram.cpp:22-70 | commands that never write a uniform keep its value |
| Gpu.LastWriteWins | 3d-graphics-engine/ShaderProgram.cpp:22-70 | a uniform holds the value of its last write |
| Gpu.WrittenNames | 3d-graphics-engine/ShaderProgram.cpp:22-70 | a shader holds a uniform exactly when some command writes it |
| Lights.ShadowData.constructor | 3d-graphics-engine/Light.h:24-29 | the shadow data holds exactly the given matrices, planes, bias and projection kind |
| Lights.ShadowData.UpdateLightViewMatrix | 3d-graphics-engine/Light.h:31-38 | only the view matrix changes, and the next light matrix (GetLightMatrix) is the projection times the new view |
| Lights.LightCounters.constructor | 3d-graphics-engine/PointLight.cpp:6 | both static id counters start at 0 (DirectionalLight.cpp:6 too) |
| Lights.ProductInUnit | 3d-graphics-engine/Light.h:129-131 | a product of two numbers in [0, 1] stays in [0, 1] |
| Lights.ScaledTermsAreColours | 3d-graphics-engine/Light.h:99-131 | a light built from a valid colour and intensity gives valid ambient, diffuse and specular colours, the diffuse one being the colour scaled by the intensity |
| Lights.LightUpNotColinear | 3d-graphics-engine/DirectionalLight.cpp:78-88 | for every unit direction the up vector LightUp chooses is not colinear with it, so the view matrix exists; stored directions are not known to be of unit length, see LightUpColinearExactly |
| Lights.LightUpColinearExactly | 3d-graphics-engine/DirectionalLight.cpp:80-88 | for any direction, LightUp's up vector is colinear with it exactly when the direction is vertical but neither (0, 1, 0) nor (0, -1, 0) |
| Lights.UnitSquare | 3d-graphics-engine/DirectionalLight.cpp:85-88 | a number whose square is 1 is 1 or -1 |
| Lights.CreateViewMatrix | 3d-graphics-engine/DirectionalLight.cpp:68-95 | fails (the assertion) exactly for a direction of zero length; otherwise looks from OFFSET units back along the direction, one direction ahead, with the adjusted up vector |
| Lights.DirectionalViewGeometry | 3d-graphics-engine/DirectionalLight.cpp:73-77 | the target is exactly one direction ahead of the eye, and the eye is OFFSET directions behind the origin |
| Lights.SetUniforms | 3d-graphics-engine/PointLight.cpp:35-49 | one command per field of the light, each a uniform write to the light's own indexed name, carrying in order the shadow index, the ambient, diffuse and specular terms, the position (DirectionalLight.cpp:43-52: direction) and, for a point light, the quadratic, linear and constant attenuation |
| Lights.SetUniformsValues | 3d-graphics-engine/PointLight.cpp:35-49 | afterwards the shader holds every field of the light under its own name: the shadow index, the three colour terms, the position or direction (DirectionalLight.cpp:43-52) and a point light's three attenuation values |
| Lights.UniformNamesDistinct | 3d-graphics-engine/PointLight.cpp:37-48 | every field of a light is written under a name of its own |
| Lights.UniformNamesDisjoint | 3d-graphics-engine/PointLight.cpp:37-48 | lights of different kinds, or of one kind with different ids, never share a uniform name |
| Lights.SetUniformsDoNotClash | 3d-graphics-engine/PointLight.cpp:35-49 | setting a second light's uniforms keeps every value the first light set |
| Lights.Light.DefaultPoint | 3d-graphics-engine/PointLight.h:26 | a default point light: id 0, black terms, intensity 0, no shadow data |
| Lights.Light.Point | 3d-graphics-engine/PointLight.cpp:20-28 | the terms come from the colour, the intensity and attenuation are kept, the id is the next point id and only that counter advances; no shadow data yet |
| Lights.Light.Directional | 3d-graphics-engine/DirectionalLight.cpp:24-36 | the direction is normalised, the terms come from the colour, the id is the next directional id; fresh orthographic shadow data viewing along the direction (DirectionalLight.cpp:97-115) |
| Lights.Light.SetColour | 3d-graphics-engine/Light.h:99-110 | fails (the assertion) exactly for an invalid colour, changing nothing; otherwise ambient is 0.1 of the colour and diffuse and specular are the colour, so GetColour gives it back |
| Lights.Light.SetIntensity | 3d-graphics-engine/Light.h:112-118 | fails (the assertion) exactly outside [0, 1], changing nothing; otherwise stores the intensity; the colour is kept either way |
| Lights.Light.SetDirection | 3d-graphics-engine/DirectionalLight.cpp:55-66 | the zero vector is ignored; any other direction is normalised and the shadow view is recomputed from it, all else kept |
| Lights.Light.SetPosition | 3d-graphics-engine/PointLight.cpp:66-78 | the position changes and any shadow data now looks from it to the origin; nothing else changes |
| Lights.Light.CreateShadowData | 3d-graphics-engine/PointLight.cpp:51-64 | fresh perspective shadow data looking from the light's position to the origin, with the given aspect ratio and the point light's planes and bias |
| Lights.Light.SetDiffuse | 3d-graphics-engine/PointLight.h:36 | the diffuse term is stored unvalidated, and GetColour now gives it |
| Lights.Light.SetSpecular | 3d-graphics-engine/PointLight.h:37 | only the specular term changes, unvalidated |
| Entities.Entity.constructor | 3d-graphics-engine/Entity.cpp:10-16 | a new entity is at the origin, unrotated, at unit (uniform) scale, has no shader and owns a fresh default material |
| Entities.Entity.SetPosition | 3d-graphics-engine/Entity.h:42 | the position becomes the argument; rotation, scale and shader are unchanged |
| Entities.Entity.SetRotation | 3d-graphics-engine/Entity.h:39-48 | GetRotation returns the three angles just set; nothing else changes |
| Entities.Entity.SetScale | 3d-graphics-engine/Entity.h:50-57 | one factor on all three axes, so the scale stays uniform; nothing else changes |
| Entities.Entity.SetShader | 3d-graphics-engine/Entity.h:59 | the shader becomes the argument; the transform is unchanged |
| Entities.Entity.Bind | 3d-graphics-engine/Entity.cpp:19-22 | binding an entity issues exactly its material's binding commands; Entity::Render (Render) is the draw of its mesh that RenderEntity and ShadowPass issue after it |
| Materials.Bind | 3d-graphics-engine/Material.cpp:27-40 | with a texture: texture unit 0 is activated and the diffuse map bound first (6 commands); without: 4 commands; either way the last four are the material uniforms in source order |
| Materials.MaterialWritesUniforms | 3d-graphics-engine/Material.cpp:36-39 | the four writes leave exactly ambient, diffuse, specular and shininess in the shader |
| Materials.BindUniforms | 3d-graphics-engine/Material.cpp:27-40 | whatever the texture flag, Bind leaves exactly the four material uniforms, with the material's values |
| Materials.BindTextureIffFlag | 3d-graphics-engine/Material.cpp:29-34 | Bind binds a texture if and only if the material has one |
| Materials.Material.constructor | 3d-graphics-engine/Material.cpp:6-9 | no diffuse map, white ambient, diffuse and specular, shininess 32 (Material.h:13-16); the texture flag is left unset |
| Materials.Material.WithDiffuseMap | 3d-graphics-engine/Material.cpp:11-14 | stores the given map with the default terms; the texture flag is still unset |
| Materials.Material.SetAmbient | 3d-graphics-engine/Material.h:23 | only the ambient term changes |
| Materials.Material.SetDiffuse | 3d-graphics-engine/Material.h:24 | only the diffuse term changes |
| Materials.Material.SetSpecular | 3d-graphics-engine/Material.h:25 | only the specular term changes |
| Materials.Material.SetShininess | 3d-graphics-engine/Material.cpp:22-25 | only the shininess changes |
| Materials.Material.SetDiffuseMap | 3d-graphics-engine/Material.cpp:16-20 | stores the map and sets the texture flag; the colour terms are unchanged |
| Cameras.CameraVectors | 3d-graphics-engine/Camera.cpp:38-48 | the view's height is the sine of the pitch; right is the normalised cross of view and world up, and up the normalised cross of right and view |
| Cameras.RightIsHorizontal | 3d-graphics-engine/Camera.cpp:44-46 | the right vector is horizontal, so strafing never changes the height, and it vanishes only when the view is vertical |
| Cameras.AspectRatio | 3d-graphics-engine/Camera.cpp:52-55 | the ratio times the height (1 for a minimised window) is the width: no division by zero |
| Cameras.AccumulatedIsTotal | 3d-graphics-engine/Camera.cpp:74-105 | the velocity after a series of key presses is the start plus the sum of their contributions |
| Cameras.TotalFront | 3d-graphics-engine/Camera.cpp:74-105 | the sum of contributions splits off its first press |
| Cameras.TotalByCounts | 3d-graphics-engine/Camera.cpp:74-105 | the summed velocity depends only on net presses per axis: forwards minus backwards, rights minus lefts, ups minus downs |
| Cameras.CombinationStep | 3d-graphics-engine/Camera.cpp:76-100 | one more press moves the combination by one unit along that key's axis |
| Cameras.CountsStep | 3d-graphics-engine/Camera.cpp:76-100 | one more press changes the net counts by exactly its own key |
| Cameras.NetStep | 3d-graphics-engine/Camera.cpp:76-100 | appending a press changes the net count of one axis by plus or minus one, or not at all |
| Cameras.PressOrderIrrelevant | 3d-graphics-engine/Camera.cpp:74-105 | the same key presses in any order give the same velocity |
| Cameras.Camera.constructor | 3d-graphics-engine/Camera.cpp:9-36 | at the given position and at rest, level, yaw -90 (facing -z), default sensitivity, the projection for the window size, and vectors that follow pitch and yaw |
| Cameras.Camera.CalculateCameraVectors | 3d-graphics-engine/Camera.cpp:38-48 | the vectors become the ones pitch and yaw determine; nothing else changes |
| Cameras.Camera.CreateProjectionMatrix | 3d-graphics-engine/Camera.cpp:50-59 | the projection is the perspective for this window's aspect ratio; nothing else changes |
| Cameras.StillMouseKeepsOrientation | 3d-graphics-engine/Camera.cpp:61-72 | a mouse move with no offset leaves pitch and yaw unchanged, the clamp keeping a pitch within 89 degrees |
| Cameras.Camera.UpdateOrientation | 3d-graphics-engine/Camera.cpp:61-72 | yaw moves by the scaled x offset; pitch by the negated, scaled y offset, clamped to 89 degrees; the vectors follow |
| Cameras.Camera.CalculateVelocity | 3d-graphics-engine/Camera.cpp:74-105 | the velocity gains exactly the pressed key's direction; everything else is kept |
| Cameras.Camera.UpdatePosition | 3d-graphics-engine/Camera.cpp:107-118 | a non-zero velocity moves the camera dt along its direction; the velocity is then zero |
| Cameras.Camera.GetViewMatrix | 3d-graphics-engine/Camera.cpp:120-125 | the cached view matrix looks from the position one view direction ahead; nothing else changes |
| MeshCreator.CreateCube | 3d-graphics-engine/MeshCreator.cpp:9-81 | 24 vertices (four per face) and 36 indices (two triangles per face), no texture coordinates, and the normals GenerateVertexNormals computes for them (the Mesh(positions, indices) constructor, Mesh.cpp:8-11) |
| MeshCreator.CubeIndicesInRange | 3d-graphics-engine/MeshCreator.cpp:50-73 | every index of the cube names one of its 24 vertices, so its vertex normals can be generated |
| MeshCreator.CubeVerticesAreCorners | 3d-graphics-engine/MeshCreator.cpp:11-45 | every vertex of the cube is a corner of [-1, 1]^3 |
| MeshCreator.CreatePyramid | 3d-graphics-engine/MeshCreator.cpp:83-158 | 16 vertices with 16 texture coordinates and 18 indices: a two-triangle base and four sides; every index names one of the vertices, and the normals are those GenerateVertexNormals computes (Mesh.cpp:25-27 delegates to Mesh.cpp:8-11) |
| MeshCreator.PyramidVerticesOnBaseOrApex | 3d-graphics-engine/MeshCreator.cpp:83-158 | every vertex the pyramid draws lies on its base (y = -1) or is the apex (0, 1, 0) |
| MeshCreator.CreatePlane | 3d-graphics-engine/MeshCreator.cpp:160-186 | a four-vertex quad whose texture coordinates run to the repeat count on both axes, with the normals GenerateVertexNormals computes for its two triangles |
| MeshCreator.PlaneIsFlat | 3d-graphics-engine/MeshCreator.cpp:163-168 | every vertex of the plane lies on y = 0 |
| MeshCreator.PlaneTrianglesCoverQuad | 3d-graphics-engine/MeshCreator.cpp:180-184 | the two triangles share the diagonal 1-3 and together use all four corners |
| MeshCreator.UntexturablePlaneCounts | 3d-graphics-engine/MeshCreator.cpp:201-205 | the grid of size n has the (n+1)^2 positions and normals and the 2(n+1)n + n indices the generator reserves and asserts (lines 264-266), every normal pointing up |
| MeshCreator.GridIndexPositions | 3d-graphics-engine/MeshCreator.cpp:221-262 | every index names the vertex it should: the bottom vertex of column x in row z is at (x, 0, z + 1), the top one, pushed before it, at (x, 0, z) |
| MeshCreator.GridPositionsOnLattice | 3d-graphics-engine/MeshCreator.cpp:231-259 | every vertex lies on the integer lattice of y = 0 with x and z in [0, size] |
| MeshCreator.GridIndicesBelow | 3d-graphics-engine/MeshCreator.cpp:221-262 | apart from the restart markers, every index names one of the (n+1)^2 vertices |
| MeshCreator.OneRestartPerRow | 3d-graphics-engine/MeshCreator.cpp:199-261 | while the grid has at most 0xFFFF vertices (size up to 254), there is exactly one restart marker per row and no vertex index is mistaken for one |
| MeshCreator.RestartCollidesAt255 | 3d-graphics-engine/MeshCreator.cpp:199-259 | from size 255 on, the last vertex of the grid has index 0xFFFF, the restart marker itself |
| MeshCreator.RestartsAppend | 3d-graphics-engine/MeshCreator.cpp:261 | restart markers of two index lists add up |
| MeshCreator.PushStripRow | 3d-graphics-engine/MeshCreator.cpp:223-260 | one pass of the column loop appends exactly the row's vertices and indices, keeps one up normal per vertex, and ends with the vertex count of the next row's start |
| MeshCreator.PushStripColumn | 3d-graphics-engine/MeshCreator.cpp:225-259 | one column appends its top index (a new vertex in the first row, the shared bottom vertex of the row above after it) and one new bottom vertex |
| MeshCreator.UntexturablePlaneFailure | 3d-graphics-engine/MeshCreator.cpp:201-215 | below size 1 the reserved index count is negative, failing the reservation, exactly for size -1 |
| MeshCreator.CreateUntexturablePlane | 3d-graphics-engine/MeshCreator.cpp:189-269 | succeeds exactly for a size of at least 1 and then gives the grid described by UntexturablePlane (in exact arithmetic, see Left out); below that it fails for the reason UntexturablePlaneFailure gives: the reservation for -1, the size assertions otherwise |
| MeshLoader.Stoi | 3d-graphics-engine/MeshLoader.cpp:118 | an accepted value always fits in a 32-bit int; no digits or an out-of-range value fail as std::stoi throws |
| MeshLoader.DigitsValueOfNatToString | 3d-graphics-engine/MeshLoader.cpp:118 | the digits of a decimal form read back as the number |
| MeshLoader.StoiOfNatToString | 3d-graphics-engine/MeshLoader.cpp:118 | std::stoi reads back every non-negative int std::to_string writes |
| MeshLoader.Find | 3d-graphics-engine/MeshLoader.cpp:99-100 | a found position holds the character and is the first from `from` on; none means the character does not occur there |
| MeshLoader.FindFirst | 3d-graphics-engine/MeshLoader.cpp:99 | the first occurrence at or after `from` is what find returns |
| MeshLoader.SplitFromCons | 3d-graphics-engine/MeshLoader.cpp:97-114 | the fields from a position are the one starting there followed by those after the next '/', or nothing more when there is none |
| MeshLoader.FieldValuesMeaning | 3d-graphics-engine/MeshLoader.cpp:116-119 | reading succeeds exactly when stoi accepts every field, and then gives one value per field, one below what stoi read |
| MeshLoader.ReadField | 3d-graphics-engine/MeshLoader.cpp:99-119 | one pass of the delimiter loop moves past the next '/' (or stops) and keeps the values read so far a prefix of the token's values |
| MeshLoader.ParseFaceVertex | 3d-graphics-engine/MeshLoader.cpp:88-120 | the delimiter loop reads exactly the values of the token's '/'-separated fields |
| MeshLoader.SplitThree | 3d-graphics-engine/MeshLoader.cpp:90-114 | a token a/b/c with no '/' inside a, b, c splits into exactly those three fields |
| MeshLoader.FaceTokenRoundTrip | 3d-graphics-engine/MeshLoader.cpp:116-119 | reading the token p+1/t+1/n+1 gives back (p, t, n): the 1-based numbering is undone |
| MeshLoader.AddFaceVertex | 3d-graphics-engine/MeshLoader.cpp:122-125 | succeeds exactly when the three indices name existing entries, and then appends those entries to the final arrays |
| MeshLoader.ReadFace | 3d-graphics-engine/MeshLoader.cpp:77-126 | the three face vertices read match AddFaceVertices on the line's three tokens, with its failure |
| MeshLoader.ReadFaceVertex | 3d-graphics-engine/MeshLoader.cpp:82-125 | one face vertex read matches AddFaceToken on that token, with its failure |
| MeshLoader.LoadMesh | 3d-graphics-engine/MeshLoader.cpp:11-146 | the loader's result is LoadedMesh of the file, which folds ParseLine over the lines: null for a file that cannot be opened, a failure when a line fails or when no face line gives the Mesh constructor an index (Mesh.cpp:37), otherwise the lines parsed in order |
| MeshLoader.ParsedArraysBalanced | 3d-graphics-engine/MeshLoader.cpp:69-127 | every face line adds exactly three vertices, so the three final arrays stay equally long: three per face line read |
| MeshLoader.LoadedMeshShape | 3d-graphics-engine/MeshLoader.cpp:130-139 | a loaded mesh has equally many positions, texture coordinates and normals, three per face line, at least one face line, and the index buffer 0, 1, ..., n - 1 |
| MeshLoader.FacelessFileFails | 3d-graphics-engine/Mesh.cpp:33-37 | a file whose lines all parse but that has no "f " line fails the constructor's assertion that there is an index |
| MeshLoader.UnopenableFileGivesNull | 3d-graphics-engine/MeshLoader.cpp:141-145 | a file that cannot be opened gives a null mesh and no failure |
| MeshLoader.FaceLineAddsNamedVertices | 3d-graphics-engine/MeshLoader.cpp:69-127 | a face token p+1/t+1/n+1 naming existing entries appends exactly those entries |
| MeshLoader.OtherLinesIgnored | 3d-graphics-engine/MeshLoader.cpp:33-69 | a line with none of the prefixes "v ", "vt", "vn", "f " changes nothing |
| MeshUtil.Neighbours | 3d-graphics-engine/MeshUtil.cpp:80-81 | the next and previous corners are the two other corners of the face, distinct from each other |
| MeshUtil.CrossIsCyclic | 3d-graphics-engine/MeshUtil.cpp:83-86 | the cross product of the two edges is the same from every corner of a triangle |
| MeshUtil.CrossOfEdges | 3d-graphics-engine/MeshUtil.cpp:83-86 | (b - a) x (c - a) equals a x b + b x c + c x a, an expression symmetric under rotating the corners |
| MeshUtil.CornersShareFaceNormal | 3d-graphics-engine/MeshUtil.cpp:74-87 | ComputeNormal takes the cross product of the two edges leaving a face corner; whichever corner it starts from, it gives the face's normal |
| MeshUtil.GetFaceIndices | 3d-graphics-engine/MeshUtil.cpp:89-99 | the three indices of the face that starts at the given position, in order |
| MeshUtil.VisitFaceCorners | 3d-graphics-engine/MeshUtil.cpp:35-61 | the inner loop's effect on the normals and the counter is VisitCorners over the face's three corners: only the next vertex in order gets a normal |
| MeshUtil.GenerateVertexNormals | 3d-graphics-engine/MeshUtil.cpp:9-68 | one normal per vertex, equal to VertexNormals: each vertex gets the normal of the first face corner at which it is the next vertex in order |
| MeshUtil.VisitFacesWritesPrefix | 3d-graphics-engine/MeshUtil.cpp:40-48 | vertices get normals strictly in order, so only the first `count` slots are written and the rest stay zero |
| MeshUtil.SequentialFaces | 3d-graphics-engine/MeshUtil.cpp:29-65 | with the index list 0, 1, ..., n - 1, after f faces the first 3f vertices hold their faces' normals |
| MeshUtil.EveryVertexGetsItsFaceNormal | 3d-graphics-engine/MeshUtil.cpp:9-68 | for separate triangles indexed 0, 1, ..., n - 1 (as LoadMesh builds them), every vertex receives the normal of its own face |
| MeshUtil.Iota | 3d-graphics-engine/MeshLoader.cpp:130-135 | the list 0, 1, ..., n - 1 |
| UI.NoRepeatsKeepNames | 3d-graphics-engine/UIController.h:28-66 | when no name repeats, every label is the name itself |
| UI.RepeatsAreToldApart | 3d-graphics-engine/UIController.h:14-16 | two occurrences of one name always get different labels: the k-th repeat is suffixed "(k)" |
| UI.LabelInjective | 3d-graphics-engine/UIController.h:47-51 | for one name, different repeat counts give different labels |
| UI.LabelsCanCollide | 3d-graphics-engine/UIController.h:14-16 | the suffix does not make labels unique across names: a name ending in "(1)" meets the first repeat of its stem |
| UI.StringCounter.constructor | 3d-graphics-engine/UIController.h:21 | a new counter holds no names |
| UI.StringCounter.Add | 3d-graphics-engine/UIController.h:23-26 | the name is appended and the earlier names are kept in order |
| UI.StringCounter.GetStrings | 3d-graphics-engine/UIController.h:28-66 | one label per added name, in order, each the name suffixed by how often it was seen before (none for the first); the frequency map counts exactly the names seen so far |
| UI.ClampedColour | 3d-graphics-engine/UIController.cpp:32-37 | every channel of the result lies in [0, 1] |
| UI.ClampedColourIdempotent | 3d-graphics-engine/UIController.cpp:32-37 | a valid colour is left alone, so clamping twice is clamping once |
| UI.ClampColour | 3d-graphics-engine/UIController.cpp:32-37 | the first three channels become their clamped values and the rest of the buffer is untouched |
| UI.GetCString | 3d-graphics-engine/UIController.cpp:16-30 | a fresh buffer of size + 1 holding the string followed by the NUL terminator |
| UI.UIController.constructor | 3d-graphics-engine/UIController.cpp:39-44 | two separate, empty name counters and no C-string labels |
| UI.UIController.AddSceneObject | 3d-graphics-engine/UIController.cpp:60-72 | "PointLight" and "DirectionalLight" go to the light list, every other name to the entity list; the other list is unchanged |
| UI.UIController.BeforeFirstRender | 3d-graphics-engine/UIController.cpp:74-95 | succeeds exactly when both counts match the number of names (the two assertions); then the labels of each list are appended as NUL-terminated copies, the earlier ones kept; on failure nothing is appended |
| UI.AppendCStrings | 3d-graphics-engine/UIController.cpp:86-94 | one fresh NUL-terminated copy per label, appended in order after the existing entries |
| Windows.MouseStep | 3d-graphics-engine/Window.cpp:165-192 | the remembered position becomes the cursor; an armed first move reports no movement; otherwise the offset carries the previous position onto the new one |
| Windows.OffsetsTelescope | 3d-graphics-engine/Window.cpp:167-181 | with the guard armed, the first offset is zero and the offsets of a series of moves add up to the distance from the first reported position to the last: no jump on the first move |
| Windows.TrackedTotal | 3d-graphics-engine/Window.cpp:183-188 | once tracking, the offsets of a series of moves add up to the distance from the previous position to the last |
| Windows.Window.constructor | 3d-graphics-engine/Window.cpp:69-80 | the given size, the first-move guard armed, the cursor outside and not over ImGui, position (0, 0), normal cursor mode |
| Windows.Window.CalculateMouseOffset | 3d-graphics-engine/Window.cpp:165-192 | the offset is the one MouseStep gives for the old state, the guard is disarmed, the cursor is remembered; nothing else changes |
| Windows.Window.OnCursorEntered | 3d-graphics-engine/Window.cpp:14-29 | the flag is set only by an enter event while it was clear; every other event clears it; nothing else changes |
| Windows.Window.OnWindowResized | 3d-graphics-engine/Window.cpp:31-43 | the stored size becomes the new one; nothing else of the window changes |
| Windows.Window.MouseButtonCallback | 3d-graphics-engine/Window.cpp:45-67 | the cursor is captured exactly on a left press while in the window, not over ImGui and not already captured; otherwise the mode is kept |
| Windows.Window.OnUserRequestedCursor | 3d-graphics-engine/Window.cpp:199-212 | a held cursor is released and the first-move guard re-armed; a free cursor changes nothing |
| Windows.Window.ImGuiHighlighted | 3d-graphics-engine/Window.h:50-53 | records whether ImGui wants the mouse, and nothing else changes |
| DebugLines.Interleave | 3d-graphics-engine/Debug.cpp:13-17 | the interleaved list has two elements per vertex |
| DebugLines.InterleaveRoundTrip | 3d-graphics-engine/Debug.cpp:13-17 | the even elements of the interleaving are the vertices and the odd ones the endpoints: the layout loses nothing |
| DebugLines.GenerateNormalLines | 3d-graphics-engine/Debug.cpp:18-44 | the result has the combined size; pair i is vertex i then endpoint i; for an odd total the last element stays zero |
| DebugLines.NormalLinesAreInterleaved | 3d-graphics-engine/Debug.cpp:26-28 | for lists of equal length, GenerateNormalLines' result is exactly the interleaving |
| DebugLines.CreateNormals | 3d-graphics-engine/Debug.cpp:46-74 | given that two empty lists are not passed (undefined behaviour), fails (the assertion) exactly when the sizes differ, uploading nothing; otherwise uploads one list in which line i runs from vertex i to vertex i plus normal i |
| Text.NatToString | 3d-graphics-engine/PointLight.cpp:37 | decimal digits only, at least one; one digit exactly below 10 |
| Text.IntToString | 3d-graphics-engine/Renderer.cpp:137 | never empty, and never holds the "]" or "." that delimit the indexed uniform names |
| Text.NatToStringInjective | 3d-graphics-engine/UIController.h:50 | distinct naturals have distinct decimal forms |
| Text.IntToStringInjective | 3d-graphics-engine/UIController.h:50 | distinct ints have distinct std::to_string forms |
| Text.SignChar | 3d-graphics-engine/UIController.h:50 | the form starts with a minus sign exactly for negative numbers |
| Text.CancelAtMarker | 3d-graphics-engine/Renderer.cpp:209-212 | equal strings split at the first marker character have equal halves |
| Text.IndexedInjective | 3d-graphics-engine/Renderer.cpp:209-212 | indexed uniform names with different indices never coincide, and with the same index only for the same field |
| MeshManagers.LookupMesh | 3d-graphics-engine/MeshManager.cpp:40-57 | succeeds exactly when the name is stored with a non-null mesh, giving that mesh; otherwise fails with "Mesh is NULL"; MeshManager.GetMesh is this lookup on the manager's map |
| MeshManagers.LookupAfterCreate | 3d-graphics-engine/MeshManager.cpp:25-38 | after storing under a new name, that name gives the stored mesh (or fails if null) and every other name gives what it gave before |
| MeshManagers.MeshManager.constructor | 3d-graphics-engine/MeshManager.h:13 | a new manager holds no meshes |
| MeshManagers.MeshManager.CreateMesh | 3d-graphics-engine/MeshManager.cpp:25-38 | fails and stores nothing exactly when the name is taken; otherwise stores the (possibly null) mesh under the name |
| MeshManagers.MeshManager.CreateMeshFromFile | 3d-graphics-engine/MeshManager.cpp:20-23 | loads MODEL_PATH + filename and stores the loader's result, even a null one, under the file name; fails when the name is taken or one of the loader's assertions fails, including a file without faces |
| MeshManagers.MeshManager.Destroy | 3d-graphics-engine/MeshManager.cpp:9-18 | every entry is visited and freed exactly once |
| ShaderManagers.Emplace | 3d-graphics-engine/ShaderManager.cpp:24-27 | the name becomes a key; an existing entry is kept and other entries are unchanged |
| ShaderManagers.LookupShader | 3d-graphics-engine/ShaderManager.cpp:29-45 | succeeds exactly when the name is registered, giving its program; otherwise fails with "Could not find shader"; ShaderManager.GetShaderByName is this lookup on the manager's map |
| ShaderManagers.FirstRegistrationWins | 3d-graphics-engine/ShaderManager.cpp:24-27 | however often a name is registered, a lookup finds the first program registered under it |
| ShaderManagers.ShaderManager.constructor | 3d-graphics-engine/ShaderManager.h:11 | a new manager holds no programs |
| ShaderManagers.ShaderManager.RegisterShader | 3d-graphics-engine/ShaderManager.cpp:24-27 | the programs become Emplace of the old ones with the new program |
| ShaderManagers.ShaderManager.Destroy | 3d-graphics-engine/ShaderManager.cpp:7-22 | every registered program is deleted exactly once |
| Registries.EachEntryOnce | 3d-graphics-engine/ShaderManager.cpp:12-21 | the walk visits every key exactly once (no repeats, nothing missed), each with its stored value |
| TextureManagers.LoadTexture | 3d-graphics-engine/TextureManager.cpp:21 | the texture is loaded from TEXTURE_PATH + filename |
| TextureManagers.LookupTexture | 3d-graphics-engine/TextureManager.cpp:25-40 | gives the stored texture exactly when the name is stored, and null otherwise; TextureManager.GetTexture is this lookup on the manager's map |
| TextureManagers.LookupAfterCreate | 3d-graphics-engine/TextureManager.cpp:8-23 | after creating from a new file name, that name gives the texture loaded from the file and every other name gives what it gave before |
| TextureManagers.TextureManager.constructor | 3d-graphics-engine/TextureManager.h:11 | a new manager holds no textures |
| TextureManagers.TextureManager.CreateTexture | 3d-graphics-engine/TextureManager.cpp:8-23 | fails and stores nothing exactly when the name is taken; otherwise stores the texture loaded from the file |
| Planes.MakePlane | 3d-graphics-engine/Plane.cpp:5-14 | succeeds exactly for a size of at least 1, with the untexturable grid of that size and the given height, and otherwise fails with the grid generator's own reason |
| Planes.PlaneIsCentred | 3d-graphics-engine/Plane.cpp:9-13 | the grid's extreme corners, once placed, are symmetric about the given point, so the plane is centred on it |
| Planes.PlaneStripsBreakAtRestartIndex | 3d-graphics-engine/Plane.cpp:16-24 | the restart index Render enables is the one the grid generator ends each row with, so the plane is drawn as exactly `size` strips |
| Rendering.BiasMapsClipToTexture | 3d-graphics-engine/Renderer.cpp:20-24 | BIAS_MATRIX takes (x, y, z, 1) to (x/2 + 1/2, y/2 + 1/2, z/2 + 1/2, 1), so clip coordinates in [-1, 1] land in texture coordinates [0, 1] |
| Rendering.ShadowPass | 3d-graphics-engine/Renderer.cpp:151-172 | given "shadow-map" is registered (Renderer.cpp:159 asserts it otherwise), the commands issued are the shadow pass of ShadowPassCmds: offset on, clear, bind "shadow-map", one lightMatrix × model write and draw per entity, offset off |
| Rendering.ShadowDrawsAt | 3d-graphics-engine/Renderer.cpp:162-170 | a shadow pass draws every entity once, in entity order, each draw preceded by lightMatrix = light matrix × that entity's model matrix |
| Rendering.ShadowPassShape | 3d-graphics-engine/Renderer.cpp:151-172 | a shadow pass has 2 per entity plus 4 commands, enables the polygon offset (1.1, 4.0) first and disables it last, and neither touches the offset nor writes a shadow map in between |
| Rendering.ShadowPasses | 3d-graphics-engine/Renderer.cpp:253-275 | the shadow loop of a frame: the commands issued are ShadowPhase, and every light with shadow data gets BIAS_MATRIX × its light matrix stored at its own index |
| Rendering.LightShadowPass | 3d-graphics-engine/Renderer.cpp:255-274 | one light: no work without shadow data; otherwise write its map, shadow pass, read the map into unit i + 1, store the biased matrix at i and leave every other slot unchanged |
| Rendering.ShadowedIndicesMeaning | 3d-graphics-engine/Renderer.cpp:253-258 | the indices of the shadowed lights are strictly increasing and are exactly the lights that have shadow data |
| Rendering.ShadowPassesInLightOrder | 3d-graphics-engine/Renderer.cpp:253-275 | the shadow maps written in a frame are those of the shadowed lights, each once, in light order |
| Rendering.RenderPass | 3d-graphics-engine/Renderer.cpp:174-220 | the commands issued are RenderPassCmds: default framebuffer, viewport, clear, the skybox when there is one, then every entity |
| Rendering.RenderEntity | 3d-graphics-engine/Renderer.cpp:195-219 | one entity: bind its shader, bind its material, per light the shadow bias and biased light matrix × model, then the two matrices and the draw |
| Rendering.EntityRenderUniforms | 3d-graphics-engine/Renderer.cpp:197-216 | after an entity is drawn its shader holds modelViewProjMatrix = projection × view × model, modelToWorldMatrix = model, and for every light i shadowBiases[i] = its bias and lightMatrices[i] = matrix i × model |
| Rendering.LightWritesUniforms | 3d-graphics-engine/Renderer.cpp:206-213 | the per-light loop sets shadowBiases[i] and lightMatrices[i] for every i below the light count and writes no other name |
| Rendering.LightUniformsGrow | 3d-graphics-engine/Renderer.cpp:232-237 | the uniform writes for the first i lights are a prefix of those for the first j lights, for i <= j |
| Rendering.EveryEntityRendered | 3d-graphics-engine/Renderer.cpp:195-219 | the render pass draws every entity, in entity order: the block for entity i follows those for entities 0 .. i-1 |
| Rendering.RenderWireframeMode | 3d-graphics-engine/Renderer.cpp:295-326 | given "flat-colour" is registered and "sphere.obj" is found (Renderer.cpp:299, 318), the commands issued are WireframeCmds: clear, bind "flat-colour", white, one MVP write and draw per entity, then a white marker per point light |
| Rendering.WireframeCmdsArePlainAfterHead | 3d-graphics-engine/Renderer.cpp:295-326 | wireframe mode binds no material, reads no shadow map and draws no skybox |
| Rendering.RenderMarkers | 3d-graphics-engine/Renderer.cpp:359-397 | given "flat-colour" is registered and the "sphere.obj" mesh is found (Renderer.cpp:382, 388), the commands issued are a marker per point light, scaled by 0.1 at its position, in the light's diffuse colour or white in wireframe mode |
| Rendering.PointLightsNoShadowWork | 3d-graphics-engine/Renderer.cpp:377-397 | drawing the point-light markers does no shadow-map work |
| Rendering.RenderShaded | 3d-graphics-engine/Renderer.cpp:244-292 | the shaded part of a frame: the commands issued are ShadedCmds, shadow passes then the on-screen work |
| Rendering.RenderPassNoShadowWork | 3d-graphics-engine/Renderer.cpp:174-220 | the render pass neither writes a shadow map nor draws into one |
| Rendering.OnScreenNoShadowWork | 3d-graphics-engine/Renderer.cpp:277-292 | everything after the shadow loop — render pass, shadow-map view, markers — does no shadow-map work |
| Rendering.FrameSplit | 3d-graphics-engine/Renderer.cpp:222-292 | a shaded frame is the per-frame uniforms, then the shadow loop, then the on-screen work |
| Rendering.ShadowPassesPrecedeShading | 3d-graphics-engine/Renderer.cpp:222-292 | in a shaded frame every shadow-map write comes before every on-screen draw |
| Rendering.EveryLightUniformsFirst | 3d-graphics-engine/Renderer.cpp:228-237 | every frame starts with the eye position and light uniforms, in which light i's block follows those of lights 0 .. i-1 |
| Rendering.WireframeIsAnEarlyExit | 3d-graphics-engine/Renderer.cpp:239-244 | after the light uniforms a wireframe frame does no shaded-only work: no material, no shadow map, no skybox |
| Rendering.ShadowMapViewUniforms | 3d-graphics-engine/Renderer.cpp:328-357 | the shadow-map view sets isOrtho = 1 for an orthographic light and nothing else; otherwise isOrtho = 0, nearZ and farZ |
| Rendering.ShadowMapViewRestoresCompare | 3d-graphics-engine/Renderer.cpp:350-356 | the compare mode is switched off just before the map is read and switched back on as the last command, with no other compare or read before |
| Rendering.LightCountUniforms | 3d-graphics-engine/Renderer.cpp:119-128 | the six writes after the debug quad's two give each default shader the global ambient light and both light counts |
| Rendering.DebugQuadUniforms | 3d-graphics-engine/DebugQuad.cpp:50-55 | after BeforeFirstRender the "debug-quad" shader holds exactly the scale (0.25, 0.25, 0) and the translation (0.75, 0.75, 0) of the quad's default size and place; no other set-up write touches it |
| Rendering.BeforeFirstRenderUniforms | 3d-graphics-engine/Renderer.cpp:119-141 | after BeforeFirstRender each default shader holds shadowMaps[i] = i + 1 for every light i, both light counts and the global ambient light |
| Rendering.NextIndexWraps | 3d-graphics-engine/Renderer.cpp:144-149 | one press from index j gives j + 1 below the light count and 0 from the last light |
| Rendering.IndexAfterSteps | 3d-graphics-engine/Renderer.cpp:144-149 | pressing "next shadow map" k times from index j moves to j + k while below the light count and wraps to 0 on reaching it |
| Rendering.Renderer.constructor | 3d-graphics-engine/Renderer.cpp:27-50 | no skybox, no default shaders, all toggles off, view index 0, and the current clear colour saved |
| Rendering.Renderer.SetSkybox | 3d-graphics-engine/Renderer.h:64 | only the skybox changes |
| Rendering.Renderer.UpdateAmbientLight | 3d-graphics-engine/Renderer.cpp:52-63 | once the default shaders are assigned both get the new globalAmbientLight; before that nothing is written |
| Rendering.Renderer.ToggleRenderShadowMapView | 3d-graphics-engine/Renderer.cpp:65-69 | flips the shadow-map view flag and nothing else |
| Rendering.Renderer.ToggleWireframeRendering | 3d-graphics-engine/Renderer.cpp:71-93 | flips wireframe mode and nothing else; turning it on draws lines on black, turning it off fills polygons on the saved clear colour |
| Rendering.Renderer.NextShadowMapView | 3d-graphics-engine/Renderer.cpp:144-149 | with at least one light the view index moves to the next light, cyclically, and stays below the light count; nothing else changes |
| Rendering.Renderer.BeforeFirstRender | 3d-graphics-engine/Renderer.cpp:95-142 | succeeds exactly when "debug-quad", "phong" and "phong-notexture" are all registered (each GetShaderByName asserts); point-light markers are drawn exactly when there is a point light; once "debug-quad" is found the quad's two writes of DebugQuad::Initialise are issued (Renderer.cpp:108); on success the default shaders become assigned and the commands issued are those DebugQuadUniforms and BeforeFirstRenderUniforms describe, otherwise only the quad's writes, or nothing, are issued and the flag is unchanged |
| Rendering.Renderer.SetLightUniforms | 3d-graphics-engine/Renderer.cpp:232-237 | each active light's uniforms go to the textured and then the untextured default shader, with its array position as index |
| Rendering.Renderer.Render | 3d-graphics-engine/Renderer.cpp:222-293 | the commands of one frame are Frame for the current flags, about which the lemmas above state ordering and uniforms; Renderable requires the lookups the frame makes to succeed: "shadow-map" when a light casts shadows, "flat-colour" and the "sphere.obj" mesh in wireframe mode or when point-light markers are drawn |
| GraphicsEngines.TruncDiv | 3d-graphics-engine/GraphicsEngine.cpp:118 | C++ integer division: for a non-negative dividend and a positive divisor it is Euclidean division, and for a negative dividend it is the negated quotient of the magnitudes, which truncates toward zero |
| GraphicsEngines.TruncDivDropsFraction | 3d-graphics-engine/GraphicsEngine.cpp:118 | the aspect ratio passed to a point light's shadow data is the whole number of window heights in the width: the fraction is dropped |
| GraphicsEngines.DefaultWindowPointLightAspect | 3d-graphics-engine/GraphicsEngine.cpp:118 | in the default 1280 × 720 window a point light's shadow frustum gets aspect ratio 1, not 16 / 9 |
| GraphicsEngines.PointLightsIn | 3d-graphics-engine/GraphicsEngine.cpp:121-124 | the point-light list has at most as many entries as the light table, and each entry is a point light from the table |
| GraphicsEngines.KindsAddUp | 3d-graphics-engine/GraphicsEngine.cpp:108-134 | every light is a point or a directional light, so the two counts add up to the number of lights and the point-light list is as long as the point-light count |
| GraphicsEngines.AppendLight | 3d-graphics-engine/GraphicsEngine.cpp:91-134 | adding a light keeps the old table as a prefix, extends the point-light list only for a point light, and raises exactly the count of its own kind |
| GraphicsEngines.HeldKeysVelocity | 3d-graphics-engine/GraphicsEngine.cpp:256-289 | the velocity ProcessInput builds from rest: W against S along the view vector, D against A along the right vector, Q against E along the up vector; both keys of a pair cancel and the call order does not matter |
| GraphicsEngines.TotalAppend | 3d-graphics-engine/GraphicsEngine.cpp:256-289 | the velocity of two series of movement calls is the sum of their velocities |
| GraphicsEngines.KeyCommandOf | 3d-graphics-engine/GraphicsEngine.cpp:291-321 | only a press acts; ESC releases the cursor, F toggles wireframe, TAB toggles the shadow-map view, C cycles the shadow map, each exactly for its own key |
| GraphicsEngines.FlagsAfter | 3d-graphics-engine/GraphicsEngine.cpp:291-321 | cycling leaves the shadow-map view index in range of the lights; no command changes the skybox or the point-light flag, and only cycling moves the index |
| GraphicsEngines.PressingTwiceRestores | 3d-graphics-engine/GraphicsEngine.cpp:303-314 | pressing F, or TAB, twice leaves the renderer's flags as they were |
| GraphicsEngines.OnlyPressesOfFlagKeysChangeFlags | 3d-graphics-engine/GraphicsEngine.cpp:291-321 | a release or a repeat changes no renderer flag, and neither does a press of any key other than F, TAB and C |
| GraphicsEngines.ShaderFor | 3d-graphics-engine/GraphicsEngine.cpp:323-340 | an entity gets "phong" exactly when its material has a texture and "phong-notexture" exactly when it has none |
| GraphicsEngines.GraphicsEngine.CountsAddUp | 3d-graphics-engine/GraphicsEngine.cpp:91-134 | in a valid engine numLights = pointLightCount + directionalLightCount and the point-light list holds pointLightCount lights |
| GraphicsEngines.GraphicsEngine.constructor | 3d-graphics-engine/GraphicsEngine.cpp:20-48 | an empty scene with culling on: no lights, entities or skybox, a camera at the default position projecting for the window, a renderer with every flag off, the plane, cube and sphere meshes, empty texture and shader managers and empty name lists |
| GraphicsEngines.BuiltInMeshManager | 3d-graphics-engine/GraphicsEngine.cpp:44-47 | a new mesh manager that holds exactly "plane" (a plane repeating its texture 4 times), "cube" and the loaded "sphere.obj" |
| GraphicsEngines.GraphicsEngine.AddMesh | 3d-graphics-engine/GraphicsEngine.cpp:73-76 | the mesh manager gains MODEL_PATH + filename's loaded mesh under the file name, exactly when the name is free and the loader succeeds |
| GraphicsEngines.GraphicsEngine.AddTexture | 3d-graphics-engine/GraphicsEngine.cpp:86-89 | a texture is added under a free name, and a taken name fails and keeps the textures |
| GraphicsEngines.GraphicsEngine.AddShader | 3d-graphics-engine/GraphicsEngine.cpp:78-84 | the shader directory's program is registered under the directory name, unless the name is already taken |
| GraphicsEngines.GraphicsEngine.AddLight | 3d-graphics-engine/GraphicsEngine.cpp:91-106 | a table that is not full gets the light in slot numLights, which is then counted; a full table fails and keeps everything |
| GraphicsEngines.GraphicsEngine.CreatePointLight | 3d-graphics-engine/GraphicsEngine.cpp:108-125 | "PointLight" joins the user interface's light names and the point id counter rises; with room in the table a fresh point light with shadow data for width / height (truncated) is stored, counted and appended to the point-light list |
| GraphicsEngines.GraphicsEngine.NewPointLight | 3d-graphics-engine/GraphicsEngine.cpp:114-118 | the new point light takes the next point id, the position, default attenuation, terms from the colour, the intensity, and point-light shadow data for the given aspect ratio |
| GraphicsEngines.GraphicsEngine.CountPointLight | 3d-graphics-engine/GraphicsEngine.cpp:119-124 | counting the stored point light restores the count invariants: pointLightCount rises by one and the light joins the point-light list |
| GraphicsEngines.GraphicsEngine.CreateDirectionalLight | 3d-graphics-engine/GraphicsEngine.cpp:127-134 | "DirectionalLight" joins the light names and the directional id counter rises; with room a fresh directional light is stored and counted, and the point-light list is unchanged |
| GraphicsEngines.GraphicsEngine.CountDirectionalLight | 3d-graphics-engine/GraphicsEngine.cpp:132-133 | counting the stored directional light restores the count invariants and raises directionalLightCount by one only |
| GraphicsEngines.GraphicsEngine.CreateEntity | 3d-graphics-engine/GraphicsEngine.cpp:136-152 | an existing mesh gives a fresh entity at the origin with unit scale and no shader, appended to the entities and named in the user interface (a mesh named like a light lands in the light names and breaks the match with the scene); a missing or null mesh fails and changes nothing |
| GraphicsEngines.GraphicsEngine.SetGlobalAmbientLight | 3d-graphics-engine/GraphicsEngine.cpp:154-163 | a valid colour becomes the global ambient light and reaches both default shaders once they exist; an invalid one fails and keeps the old value |
| GraphicsEngines.GraphicsEngine.SetSkybox | 3d-graphics-engine/GraphicsEngine.cpp:165-200 | the skybox becomes the new cubemap when there was one already or the "skybox" shader is registered, and it reaches the renderer; otherwise it fails and keeps the old one |
| GraphicsEngines.GraphicsEngine.GetMesh | 3d-graphics-engine/GraphicsEngine.cpp:202-205 | a mesh is found exactly when its name is stored with a non-null entry |
| GraphicsEngines.GraphicsEngine.GetTexture | 3d-graphics-engine/GraphicsEngine.cpp:207-210 | a texture is found exactly when its name is registered; otherwise null |
| GraphicsEngines.GraphicsEngine.GetShader | 3d-graphics-engine/GraphicsEngine.cpp:212-215 | a shader is found exactly when its name is registered; otherwise the lookup fails |
| GraphicsEngines.GraphicsEngine.OnWindowResized | 3d-graphics-engine/GraphicsEngine.cpp:232-238 | the viewport becomes the new size and the camera's projection is rebuilt for it; the camera's position, velocity and orientation stay |
| GraphicsEngines.GraphicsEngine.ProcessMouseMotion | 3d-graphics-engine/GraphicsEngine.cpp:240-254 | only while the window holds the cursor (IsUserFocused) does a move turn the camera, by the window's offset, with pitch clamped; otherwise neither camera nor mouse state changes |
| GraphicsEngines.GraphicsEngine.ProcessInput | 3d-graphics-engine/GraphicsEngine.cpp:256-289 | the camera moves by the velocity accumulated from the held keys in the order W, A, S, D, Q, E, then comes to rest; its orientation and projection stay |
| GraphicsEngines.GraphicsEngine.MoveIfHeld | 3d-graphics-engine/GraphicsEngine.cpp:258-286 | a held key adds its direction to the calls made so far and the velocity follows; an unheld key changes nothing |
| GraphicsEngines.GraphicsEngine.KeyCallback | 3d-graphics-engine/GraphicsEngine.cpp:291-321 | the renderer's flags change as FlagsAfter says for the key's command; ESC releases the cursor and re-arms the first-move guard when it was held; F issues the polygon-mode commands; nothing else changes |
| GraphicsEngines.GraphicsEngine.AssignShaders | 3d-graphics-engine/GraphicsEngine.cpp:323-340 | succeeds exactly when, for every entity, the one shader its texture flag selects is registered (only that shader is looked up), and then every entity holds "phong" or "phong-notexture" by its texture flag; no transform changes |
| GraphicsEngines.GraphicsEngine.BeforeMainLoop | 3d-graphics-engine/GraphicsEngine.cpp:342-352 | the set-up before the main loop succeeds exactly when the names match the scene, the shader each entity needs is registered, and "debug-quad", "phong" and "phong-notexture" are registered; the entities then have their shaders, point-light markers follow the point-light list, and the renderer's one-time uniforms, the debug quad's included, are issued |
| GraphicsEngines.GraphicsEngine.Destroy | 3d-graphics-engine/GraphicsEngine.cpp:50-71 | every entity is freed, then every light in the table once each, and the point lights among them |

## Left out

- OpenGL, GLEW, GLFW and SOIL calls are foreign calls. Each is an abstract command in the issued sequence. Textures, shadow maps, meshes, the skybox and the debug quad are values or names, not GPU objects.
- `UIController::DrawUI`, the ImGui set-up and shutdown, and `GraphicsEngine::OnImGuiHighlighted`'s reading of ImGui state are UI plumbing. `Windows.Window.ImGuiHighlighted` takes the flag as a parameter.
- `GraphicsEngine::Run`'s main loop is left out: frame timing, `glfwPollEvents`, buffer swaps and the per-frame call of `GraphicsEngine::Render` with its culling and ImGui calls. Only the set-up before the loop is modelled, as `BeforeMainLoop`.
- Floating point: vectors use unbounded reals. `Normalize`, `Sin`, `Cos`, `LookAt`, `Perspective`, `Ortho`, `Translate`, `Rotate` and `Scale` are uninterpreted, with only the facts the proofs need, so rounding is not modelled.
- File reading is a map from path to lines. Loading a texture or a shader program gives a value named by its path.
- Float parsing in the OBJ loader is an uninterpreted function of the token.
- MeshCreator.CreateUntexturablePlane and Planes.MakePlane: the source keeps verticesPerRow, the reserved counts and the index difference in `float`, so `vertCount - difference` and the count comparisons are float arithmetic. The model computes in exact integers. That agrees with the source only while the grid has at most 2^24 vertices, (size + 1)^2 <= 2^24, i.e. size <= 4095. From size 4096 some strip indices round differently, and from size 32768 the index count no longer fits an `int`. The model also takes `capacity()` (MeshCreator.cpp:213-215, 264-266) to be exactly the reserved count, as the assertions expect.
- `std::map` iteration order is not modelled. The destructors are proved to visit every entry exactly once, in some order.
- Memory ownership is modelled only as the lists of objects each destructor frees. The `delete` of a light that does not fit in a full table is not modelled: that path ends in a failed assertion.
- Undefined behaviour in the source is a `requires`, not a modelled outcome:
  - `RenderPass` dereferences every active light's shadow data: `Renderable` requires shadow data for all of them.
  - An entity without a shader in the shaded pass: `Drawable`.
  - A shadow-map view index outside the active lights: `Renderable`.
  - `NextShadowMapView`, and the C key, with no lights take a modulo by zero: `lightCount > 0`.
  - `CreatePointLight` divides by a window height of 0: `window.height != 0`.
  - `Material::m_hasTexture` is read before it is ever set: `hasTextureSet` is a ghost of that fact, required by `HasTexture`, `Bind`, `AssignShaders` and `BeforeMainLoop`.
  - A material whose texture flag is set but whose diffuse map is null: `Materials.Bindable` excludes it, since `Material::Bind` (Material.cpp:29-33) dereferences the map. `SetDiffuseMap` given a null `GetTexture` result for a missing name leads there.
  - `Debug::Mesh::CreateNormals` given two empty lists takes the address of the first element of an empty vector (Debug.cpp:69-70): DebugLines.CreateNormals requires that the lists are not both empty.
  - Out-of-range vector reads in `GetFaceIndices`, `GenerateVertexNormals` (whole faces, indices below the vertex count) and `GenerateNormalLines` are excluded by their requires.
- Lights.Light.Point: requires a valid colour and intensity. In the source an invalid argument fails an assertion inside the constructor, which a Dafny constructor cannot report.
- Lights.Light.Directional: requires a valid colour and intensity and a non-zero direction, for the same reason.
- GraphicsEngines.GraphicsEngine.CreatePointLight: requires a valid colour and intensity, because the light's constructor asserts them.
- GraphicsEngines.GraphicsEngine.CreateDirectionalLight: requires a valid colour, a valid intensity and a non-zero direction, because the light's constructor asserts them.
- GraphicsEngines.GraphicsEngine.constructor requires "sphere.obj" to load without a failed assertion (a malformed line or a file without faces), for the same reason.
- Lights.Light.SetColour: when the assertion fails it reports `ok == false` and changes nothing. The source, with assertions disabled, would go on and store the colour.
- Lights.Light.SetIntensity: when the assertion fails it reports `ok == false` and changes nothing. The source, with assertions disabled, would store the clamped value.
- MeshLoader.FieldValues computes `stoi(field) - 1` in unbounded integers. For a field equal to INT_MIN, the C++ subtraction overflows.
- Entities.Entity.CalculateModelMatrix is stated by its definition only: T × RX × RY × RZ × S, with degrees converted to radians. It has no separate contract, because the matrix operations are uninterpreted.
- GraphicsEngines.GraphicsEngine.SetSkybox keeps the skybox's cubemap directory only. The `Skybox` object, its reuse of the old shader and mesh, and seamless cubemap filtering are GL state.
- Rendering.Renderer.Render writes the frame's commands for a `Scene` snapshot of the engine (entities, active lights, point lights, the registered shader names, what GetMesh("sphere.obj") finds, window size, camera matrices). It does not read the engine's objects directly. The asset lookups a frame makes are preconditions (`Renderable`), not modelled failures: "shadow-map" (Renderer.cpp:159), "flat-colour" (Renderer.cpp:299, 382) and the "sphere.obj" mesh (Renderer.cpp:318, 388), whose absence fails an assertion in ShaderManager.cpp:41 or MeshManager.cpp:54.
- Rendering.ShadowPass: requires "shadow-map" to be registered, rather than modelling the failed assertion of its lookup.
- Rendering.RenderWireframeMode: requires "flat-colour" to be registered and the "sphere.obj" mesh to be found, rather than modelling the failed assertions of those lookups.
- Rendering.RenderMarkers: requires "flat-colour" to be registered (Renderer.cpp:382) and the "sphere.obj" mesh to be found (Renderer.cpp:388), rather than modelling the failed assertions of those lookups.
- Lights.LightUpNotColinear: stated for unit directions. `Normalize` carries no unit-length fact in this model, so the lemma is not applied to a light's stored direction; Lights.LightUpColinearExactly gives the exact condition for every direction instead.
- `Plane::Render` is GL calls apart from its restart index. The index is modelled as a constant, and `Planes.PlaneStripsBreakAtRestartIndex` proves it equal to the generator's marker.
