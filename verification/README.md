# opengl-rust: camera, input and model-loading logic in Dafny

The repository is a set of OpenGL tutorial programs in Rust. Apart from the
GL and FFI glue it holds three pieces of sequential logic, which this project
models as pure functions over immutable datatypes and proves properties of:

- **The free-look camera** (`src/camera.rs`). A `Camera` record over `real`
  holds position, basis (front, right, up), world up, yaw, pitch, movement
  speed, mouse sensitivity and zoom. `process_keyboard` translates along
  front or right. `process_mouse_movement` turns yaw and pitch, clamps pitch
  to [-89, 89] unless told not to, and recomputes the basis.
  `process_mouse_scroll` clamps zoom to [1, 45]. The basis recomputation is
  a parameter: a function of (yaw, pitch, world up). `Camera.Formula` spells
  out camera.rs's cross-product construction over uninterpreted cosine,
  sine and reciprocal length. Whatever those primitives are, the resulting
  basis is pairwise orthogonal.
- **Input adaptation** (`src/utils.rs`). `process_input` polls W, S, A, D
  and calls `process_keyboard` with FORWARD, BACKWARD, LEFT, RIGHT in that
  order. `process_mouse` is a state machine over (`first_mouse`, `last_x`,
  `last_y`), here the value `Input.MouseState`. It seeds the last position
  on the first cursor event, hands the camera offsets with an inverted y
  axis, and forwards the vertical part of scroll events.
- **Model loading bookkeeping** (`src/model.rs`). The imported scene is a
  tree of nodes that refer to meshes by index. `process_node` walks it in
  pre-order. `process_mesh` builds vertices, flattens face indices and
  collects diffuse then specular textures. `load_material_textures` keeps a
  cache keyed by `directory/file`, so each file is loaded once. `load_model`
  takes the directory as the path up to its last '/'. `load_texture` is a
  parameter (`string -> nat`). `Mesh::new` is the `Mesh` constructor. The
  model state also records every path handed to the loader (`loads`), so
  that "loaded at most once per path" can be stated.

`Camera::new` accepts `yaw` and `pitch` arguments, and one would expect them
to override the defaults. The code ignores them, and so does the model
(`Camera.NewIgnoresAngles`). On the first cursor event the code still calls
`process_mouse_movement` with offsets (0, 0). That leaves yaw alone, and it
moves pitch only when pitch was outside [-89, 89]. The model follows the code
here too.

Files: `options.dfy` (Rust's `Option`), `vectors.dfy` (glm vector arithmetic),
`camera.dfy`, `input.dfy`, `model.dfy`.

## Model

| member | source | states |
|---|---|---|
| Camera.UpdateCameraVectors | src/camera.rs:58-65 | afterwards front, right and up are the basis of the camera's own yaw, pitch and world up; no other field changes |
| Camera.CameraVectors | src/camera.rs:58-65 | the basis construction of update_camera_vectors (normalized direction, then right = normalize(front × world_up), up = normalize(right × front)) yields pairwise orthogonal front, right and up, with right orthogonal to world up, for any cosine, sine and normalisation factors |
| Camera.SyncedBasisOrthogonal | src/camera.rs:58-65 | a camera whose basis was last computed by camera.rs's formula has orthogonal front, right and up |
| Camera.ViewMatrix | src/camera.rs:54-56 | the view is the look-at of eye = position, target = position + front, and the camera's up (a definition; its property is the next row) |
| Camera.ViewMatrixDependsOnPose | src/camera.rs:54-56 | two cameras with the same position, front and up have the same view, whatever their angles, speed, sensitivity and zoom |
| Camera.New | src/camera.rs:33-53 | position is the argument or (0,0,5); world up is the argument or (0,1,0); yaw -90, pitch 0, speed 2.5, sensitivity 0.1, zoom 45 whatever the yaw/pitch arguments; the result satisfies the camera invariant (basis in sync, pitch and zoom in range) |
| Camera.NewIgnoresAngles | src/camera.rs:33-50 | the constructor's yaw and pitch arguments have no effect on the camera |
| Camera.DefaultCameraLooksDownNegativeZ | src/camera.rs:39-51 | with exact trigonometry at -90° and 0°, the default camera's front is (0,0,-1) |
| Camera.ProcessKeyboard | src/camera.rs:66-75 | only position changes; it moves by ±(movement_speed·delta_time) along front for FORWARD/BACKWARD and along right for RIGHT/LEFT |
| Camera.OppositeMovementsCancel | src/camera.rs:66-75 | a movement followed by the opposite one with the same delta time restores the camera exactly |
| Camera.ZeroDeltaTimeKeepsCamera | src/camera.rs:66-71 | delta time 0 leaves the camera unchanged |
| Camera.DefaultForwardScenario | src/camera.rs:66-70 | one second of FORWARD from the default camera moves it from (0,0,5) by 2.5·front |
| Camera.ProcessMouseMovement | src/camera.rs:76-97 | yaw grows by exactly x_offset·sensitivity with no clamp; pitch is clamp(pitch + y_offset·sensitivity, -89, 89) unless constrain_pitch is Some(false), in which case it is unclamped; position, zoom, speed, sensitivity and world up are unchanged; the basis is recomputed from the new angles |
| Camera.PitchSaturates | src/camera.rs:86-95 | a scaled y offset of at least 89 − pitch gives pitch exactly 89, and one of at most −89 − pitch gives exactly −89; so a camera at ±89 stays there under further movement the same way |
| Camera.SensitivityScenario | src/camera.rs:82-86 | at sensitivity 0.1, a horizontal offset of 10 turns yaw by exactly 1 and leaves an in-range pitch alone |
| Camera.ProcessMouseScroll | src/camera.rs:98-106 | zoom becomes clamp(zoom − y_offset, 1, 45), so lies in [1, 45]; nothing else changes |
| Camera.ZoomSaturates | src/camera.rs:98-106 | from a zoom in range, scrolling by 1000 gives exactly 1, by -1000 exactly 45 |
| Camera.ScrollKeepsView | src/camera.rs:54-56 | scrolling never changes the view matrix (the look-at of position, position + front, up) |
| Camera.OperationsPreserveValid | src/camera.rs:66-106 | keyboard, mouse movement with the default constraint, and scroll all preserve the invariant: basis in sync, pitch in [-89, 89], zoom in [1, 45] |
| Input.Movements | src/utils.rs:34-45 | FORWARD is applied iff W is held, BACKWARD iff S, LEFT iff A, RIGHT iff D, each at most once and in W, S, A, D order |
| Input.ProcessInput | src/utils.rs:30-46 | the frame applies process_keyboard for the held keys' movements in W, S, A, D order with one delta time; only position changes |
| Input.ForwardAndBackwardCancel | src/utils.rs:34-39 | with W and S both held the frame moves exactly as if neither were held |
| Input.MoveAllAppend | src/utils.rs:34-45 | applying one list of movements and then another is applying their concatenation |
| Input.EscapeDoesNotMove | src/utils.rs:31-33 | a frame with only Escape held leaves the camera unchanged |
| Input.TrackCursor | src/utils.rs:56-66 | after a cursor event the tracker holds (false, x, y); the first event yields offsets (0, 0); later ones yield x − last_x and last_y − y |
| Input.ProcessMouse | src/utils.rs:48-74 | a cursor event moves the camera by the tracked offsets with the default constraint, so the first event leaves yaw unchanged; a scroll event forwards only dy to the zoom and leaves the tracker unchanged; any other event changes nothing; first_mouse never returns to true |
| Input.FirstMouseStaysCleared | src/utils.rs:57-61 | once first_mouse is false it stays false over any sequence of events |
| Input.OffsetsTelescope | src/utils.rs:62-66 | over a run of cursor events the x offsets sum to last x minus the origin x, and the y offsets sum to the origin y minus last y |
| Input.ProcessEventsKeepSensitivity | src/utils.rs:55-73 | no window event, of any kind, changes the mouse sensitivity |
| Input.ProcessEventsYaw | src/utils.rs:56-68 | over a run of cursor events the yaw turns by the sum of each tracked x offset times the sensitivity |
| Input.TurnSumScales | src/camera.rs:82-85 | scaling each x offset by the sensitivity and summing equals scaling the offsets' sum |
| Input.YawFollowsCursor | src/utils.rs:56-68 | over a run of cursor events yaw turns by sensitivity × (last x − origin x) and the sensitivity is unchanged |
| ModelLoading.FindLoaded | src/model.rs:116-123 | the cache scan finds the first cached texture with the file's path, and finds none exactly when no cached path equals it |
| ModelLoading.LoadProperty | src/model.rs:109-134 | a property with the requested semantic and a string value yields one texture with path directory/name, served from the cache or freshly loaded; the cache is either unchanged or grown by exactly that returned texture, and the loader was called exactly for what was appended; any other property yields nothing and leaves the model unchanged |
| ModelLoading.LoadTextures | src/model.rs:108-140 | the returned paths are exactly directory/name for each matching string property in property order; the cache is only appended to, each entry when its path was absent, typed tex_name and holding the loader's result, and only for one of the requested files; the loader was called exactly for the appended paths, in order; each returned texture is a cache entry, a previously cached one being returned as cached (its original tex_type kept) |
| ModelLoading.LoadMaterialTextures | src/model.rs:101-141 | as for the property list (only requested files are appended and loaded), and the cache invariant (distinct paths, loader called once per cached path) is preserved |
| ModelLoading.CacheExtendsConsistent | src/model.rs:116-133 | appending only absent paths keeps every path in the cache distinct and the loader's calls equal to the cached paths |
| ModelLoading.ConsistentLoadsDistinct | src/model.rs:116-128 | under the cache invariant the loader has never been called twice with one path |
| ModelLoading.BuildVerticesAsWritten | src/model.rs:67-80 | one vertex per position, with its normal; every vertex gets element 0 of texture channel 0, or (0,0) when the channel is absent |
| ModelLoading.BuildVertices | src/model.rs:67-80 | one vertex per position, with its normal; vertex i gets element i of texture channel 0, or (0,0) when the channel is absent |
| ModelLoading.AsWrittenAgreesOnlyOnUniformCoordinates | src/model.rs:68-72 | the loop as written equals the per-vertex one iff channel 0 is absent or gives every vertex the (x, y) of vertex 0 |
| ModelLoading.AsWrittenLosesPerVertexCoordinates | src/model.rs:68-72 | a two-vertex mesh with coordinates (0,0) and (1,1): as written, vertex 1 gets (0,0) |
| ModelLoading.FlattenFaces | src/model.rs:82-86 | the nested face loop produces the concatenation of all face index lists in face order |
| ModelLoading.ProcessMesh | src/model.rs:61-99 | vertices as the loop is written (every vertex takes element 0 of channel 0, or (0,0)), indices the face concatenation; with a material index ≥ 0 the texture paths are the diffuse files followed by the specular files, each texture is in the final cache and is either the entry already cached for its file or a fresh one with the loader's id, typed texture_diffuse for a diffuse file and texture_specular otherwise, and the cache grows only by files of the two lists; with a negative index there are no textures and the model is untouched; meshes and directory unchanged, the loader called exactly for the appended entries, invariant preserved |
| ModelLoading.MaterialMeshTextures | src/model.rs:88-97 | the diffuse pass followed by the specular pass over one material hands out cached-or-fresh textures typed by the pass that loaded their file, all kept in the final cache; the cache grows only by the two passes' files, and the loader ran exactly for the appended entries |
| ModelLoading.DiffuseTexturesServed | src/model.rs:91-92 | each diffuse texture is the cached entry for its file or a freshly loaded texture_diffuse, and stays cached through the specular pass |
| ModelLoading.SpecularTexturesServed | src/model.rs:93-94 | each specular texture is the entry cached before the mesh, or the one the diffuse pass just loaded (typed texture_diffuse), or a freshly loaded texture_specular for a file that is not a diffuse file |
| ModelLoading.ProcessMeshVerticesIntended | src/model.rs:67-80 | with a full channel 0, the mesh process_mesh builds has the intended per-vertex coordinates iff channel 0 gives every vertex the same (x, y) or is absent |
| ModelLoading.ProcessMeshes | src/model.rs:50-54 | meshes are only appended, directory unchanged, cache invariant preserved; only the scene meshes the listed indices name must be processable (indexable by process_mesh without a panic) |
| ModelLoading.ProcessNode | src/model.rs:48-60 | meshes are only appended, directory unchanged, cache invariant preserved; only the scene meshes the tree name must be processable |
| ModelLoading.ProcessChildren | src/model.rs:56-59 | meshes are only appended, directory unchanged, cache invariant preserved; only the scene meshes the tree name must be processable |
| ModelLoading.ProcessMeshesInOrder | src/model.rs:50-54 | the appended meshes carry the vertices (as the loop is written) and indices of the node's listed scene meshes, in list order; only those meshes must be processable |
| ModelLoading.ProcessNodePreOrder | src/model.rs:48-60 | the appended meshes carry the geometry (vertices as the loop is written, indices) of the subtree's scene meshes in pre-order: the node's own first, then each child subtree left to right; only meshes the subtree names must be processable |
| ModelLoading.ProcessChildrenPreOrder | src/model.rs:56-59 | the children loop appends the subtrees' meshes one child after the other, left to right |
| ModelLoading.LastIndexOf | src/model.rs:39 | finds the last occurrence of the character, or none exactly when it does not occur |
| ModelLoading.Directory | src/model.rs:39-40 | the directory is a proper prefix such that path = directory + "/" + rest with no '/' in rest |
| ModelLoading.LoadModel | src/model.rs:32-47 | an import error leaves the empty model (no meshes, empty directory); otherwise (with any scene whose tree names only processable meshes, whatever the meshes it never names) the directory is the part before the last '/', a scene without a root gives no meshes and no textures, and the cache invariant holds |
| ModelLoading.LoadModelContents | src/model.rs:32-47 | after a successful import the meshes are those of the root's pre-order, with vertices built as the loop is written, and no texture file was loaded twice |

## Left out

- GL and FFI glue: `src/shader.rs`, `src/program.rs`, the buffer setup and draw calls of `src/mesh.rs` (`Mesh::new` is a plain constructor here), `Model::draw`, `src/main.rs`, and in `src/utils.rs` `load_texture`'s decoding and upload, `framebuffer_size_callback`, `to_c_str` and `ToCVoid`. None of these has logic beyond foreign calls.
- The Escape branch of `process_input` closes the window, a windowing side effect. It is not modelled beyond "it does not move the camera".
- Floating point: f32 rounding, NaN propagation and the f64 → f32 casts of cursor positions. All quantities are `real`.
- The trigonometry and normalisation of `update_camera_vectors` are uninterpreted, and so is the look-at matrix of `get_view_matrix`.
- Camera.CameraVectors: states orthogonality only, not unit length, because unit length depends on what cosine, sine and the square root actually compute.
- The asset importer (`Scene::from_file`): the imported scene, or its failure, is an input of `LoadModel`. Its error is only logged.
- Panics are preconditions: a node naming an out-of-range mesh index, a named mesh with an out-of-range material index, too few normals or an empty channel 0 while it has vertices, and a successful import of a path without '/'. Scene meshes no node names are never looked at and are unconstrained. The importer normally guarantees the indices.
- The importer's type for `material_index` is not part of this model. It is an `int` here. If the field is unsigned, the `>= 0` test always passes.
- Only texture-coordinate channel 0 is modelled, since the code reads only that one. The importer's texture semantics and property kinds are collapsed to what the code tells apart.
- `load_texture` is a function of the path. The real one hands out a fresh GL name per call. Each path is loaded at most once, so the cache cannot tell the two apart.
- `str::rfind` returns a byte index. Strings here are sequences of characters, which agree on ASCII paths.
- ModelLoading.ProcessNodePreOrder: states the vertices and indices of the appended meshes in pre-order, not their textures, because each mesh's textures depend on the cache state left by the meshes before it.
- Debug printing throughout.

## Findings

| source | as written | input that shows it | evidently intended | confidence | as-written member | corrected member |
|---|---|---|---|---|---|---|
| src/model.rs:68-69 | every vertex takes `tex_coord[0]`, element 0 of texture channel 0 | a mesh of two vertices whose channel-0 coordinates are (0,0) and (1,1): vertex 1 gets (0,0) | vertex i takes `tex_coord[i]` | high; not executed | ModelLoading.BuildVerticesAsWritten, ModelLoading.AsWrittenLosesPerVertexCoordinates | ModelLoading.BuildVertices |

`ModelLoading.ProcessMesh` and everything built on it follow the code as
written (`BuildVerticesAsWritten`). `BuildVertices` is the corrected
definition, and `ModelLoading.ProcessMeshVerticesIntended` says exactly when
the mesh `process_mesh` builds already has the intended coordinates.
