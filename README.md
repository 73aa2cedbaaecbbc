# OpenGLPractice renderer core, modelled in Dafny

This project models the bookkeeping core of a small OpenGL deferred
renderer written in C++. The parts it covers:

- **Framebuffers.** A framebuffer object gets colour textures, numbered on
  from those already attached, plus an optional depth renderbuffer. Its
  draw-buffer list always names every colour attachment.
- **Vertex arrays and shared vertex buffers.** Every attribute slot that
  refers to a buffer increments that buffer's `uses` counter. Destroying a
  vertex array decrements the counter once per slot and deletes each buffer
  whose counter reaches zero.
- **Meshes.** A mesh is uploaded into a vertex array with five attributes.
  Drawing binds texture *i* to unit *i*, under a sampler uniform named after
  the texture's role and its ordinal among textures of that role
  (`material.texture_diffuse1`, `material.texture_diffuse2`,
  `material.texture_specular1`, …).
- **Models.**
  - The importer's scene tree is walked in pre-order, and one mesh is built
    per mesh index a node names.
  - A mesh's indices are its faces' indices, laid end to end.
  - Textures come in material-slot order through a cache keyed by file
    path, so each file is loaded at most once per model.
  - The texture directory is everything before the model path's last `/`.
- **Texture loading.** `TextureFromFile` picks formats and a wrap mode from
  the channel count and the gamma flag, and uploads only when the image
  decodes.
- **The pipeline.**
  - Geometry, lights and emissive models are queued.
  - The geometry pass draws every queued model into the G-buffer.
  - The lighting pass binds the G-buffer's three textures to units 0–2,
    writes every light's uniforms and draws the screen quad.
  - A depth blit follows, then the light-geometry pass.
  - The blur pass makes ten ping-pong steps. Step *i* renders into target
    `1 - i mod 2` and, after the first step, samples what the previous step
    rendered.
  - The final pass binds its textures to units 0, 1, … and draws the quad.
  - The constructor creates the quad, the G-buffer (three colour textures
    and a depth buffer) and the two blur targets.
- **The camera.** Zooming keeps the field of view in [1, 45] degrees, and
  pitching keeps the pitch in [-89, 89].

## How the graphics API is represented

Graphics calls are values of the datatype `GL.Command`.

- **State-changing operations.** A source function that changes objects
  becomes a method of a class whose fields it updates: `Framebuffer`,
  `Buffer`, `VertexArray`, `Model`, `Pipeline` or `Camera`. It appends the
  calls it makes to `gl.trace` of a `GL.Context`, which also stands for
  the `glGen*` calls: it hands out object names from one counter that
  starts above 0 and only grows.
- **Const operations.** Const member functions (mesh and model drawing, the
  passes) change nothing the program holds. They are methods that return the
  list of calls they make.
- **Stating their effect.** Each such method states its result against a
  function on values, for example `TextureBindings`, `DrawMeshes`,
  `BlurSteps` or `LoadSlot`.
- **Reading bindings back.** What a sequence of calls leaves bound (draw or
  read framebuffer, vertex array, array buffer, active texture unit) and the
  draw calls it contains are functions of the sequence in module `GL`. The
  lemmas there compose those functions over concatenation, and say that the
  last call setting a binding decides it.

Files: `gl.dfy` (modules `Wrappers`, `GL`), `vector.dfy`, `decimal.dfy`,
`camera.dfy`, `fileutils.dfy`, `framebuffer.dfy`, `vertexarray.dfy`,
`mesh.dfy`, `model.dfy`, `pipeline.dfy`.

## Model

| member | source | states |
|---|---|---|
| GL.Context.Gen | src/buffers/framebuffer.h:20 | a `glGen*` call returns the generator's current name, never 0, and the generator moves on by one, so the model never hands out a name twice |
| GL.Context.GenMany | src/buffers/framebuffer.h:38-39 | generating `count` names returns `count` consecutive fresh names |
| GL.FreshAt | src/buffers/framebuffer.h:39 | the k-th of a batch of generated names is the generator's value plus k |
| GL.DrawFramebufferLast | src/buffers/framebuffer.h:22-33 | the last bind of `GL_FRAMEBUFFER` or `GL_DRAW_FRAMEBUFFER` decides the draw framebuffer, whatever was bound before |
| GL.ReadFramebufferLast | src/buffers/framebuffer.h:22-29 | the last bind of `GL_FRAMEBUFFER` or `GL_READ_FRAMEBUFFER` decides the read framebuffer |
| GL.VertexArrayLast | src/buffers/vertexarray.h:44-45 | the last `glBindVertexArray` decides the bound vertex array |
| GL.ArrayBufferLast | src/buffers/buffer.h:26 | the last bind to `GL_ARRAY_BUFFER` decides the bound array buffer |
| GL.ActiveUnitLast | src/mesh/mesh.cpp:18 | the last `glActiveTexture` decides the active unit |
| GL.UnbindsFramebuffer | src/buffers/framebuffer.h:60 | appending a bind of framebuffer 0 leaves neither a draw nor a read framebuffer bound |
| GL.DrawCallsCompose | src/model/model.cpp:11-12 | the draw calls of two call lists issued one after the other are those of the first, then those of the second |
| GL.BindingsCompose | src/mesh/mesh.cpp:36-43 | what two concatenated call lists leave bound is what the second leaves, starting from what the first left |
| Cameras.Clamp | src/camera/camera.cpp:36-39 | the clamped value lies in the bounds, equals the input when it already does, and is the violated bound otherwise |
| Cameras.ClampIdempotent | src/camera/camera.cpp:45-53 | clamping an already clamped value changes nothing |
| Cameras.Camera.constructor | src/camera/camera.cpp:6-10 | position, up vector, yaw, pitch and field of view are stored as given, with default speed and sensitivity |
| Cameras.Camera.Translate | src/camera/camera.h:23 | the position moves by `delta` |
| Cameras.Camera.Zoom | src/camera/camera.cpp:33-40 | the field of view becomes the old one minus `delta`, clamped to [1, 45] |
| Cameras.Camera.RotateYaw | src/camera/camera.cpp:41-44 | yaw grows by `delta`, unbounded |
| Cameras.Camera.RotatePitch | src/camera/camera.cpp:45-53 | pitch becomes the old one plus `delta`, clamped to [-89, 89] |
| Decimals.Decimal | src/mesh/mesh.cpp:22 | `std::to_string` of a count: at least one digit, only digits, no leading zero |
| Decimals.ParseDecimal | src/mesh/mesh.cpp:22 | reading the decimal rendering of n gives n back |
| Decimals.DecimalInjective | src/mesh/mesh.cpp:22-28 | distinct counters are rendered as distinct strings |
| FileUtils.FormatFor | src/utils/fileutils.h:35-52 | 3 channels upload as RGB and 4 as RGBA, anything else as RED. The stored format is SRGB for 3 channels and SRGB_ALPHA for 4 when `gamma` is set, is sRGB for nothing else, and otherwise equals the pixel format. The wrap mode is clamp-to-edge exactly for 4 channels, else repeat |
| FileUtils.TextureFilename | src/utils/fileutils.h:25-26 | the file opened is the directory, a `/`, then the path |
| FileUtils.LoadCommands | src/utils/fileutils.h:33-61 | an image that does not decode issues only the final unbind; one that does issues the 8 upload calls starting with a bind of the new texture; the texture target is always unbound at the end |
| FileUtils.TextureFromFile | src/utils/fileutils.h:23-63 | returns a freshly generated name, whether or not the image decodes, and issues exactly `LoadCommands` for `directory/path` |
| Framebuffers.Attachments | src/buffers/framebuffer.h:50-53 | the draw-buffer list of a framebuffer with n colour textures has n entries |
| Framebuffers.AttachmentsAt | src/buffers/framebuffer.h:50 | draw buffer k is `GL_COLOR_ATTACHMENT0 + k` |
| Framebuffers.ColorSetups | src/buffers/framebuffer.h:40-51 | the attach loop issues 7 calls per texture |
| Framebuffers.ColorSetupAttachesAt | src/buffers/framebuffer.h:40-50 | new texture i is bound, given storage in the requested internal format from RGBA float data, and attached at `GL_COLOR_ATTACHMENT0 + base + i`, where `base` counts the textures attached earlier: numbering continues across calls |
| Framebuffers.Framebuffer.constructor | src/buffers/framebuffer.h:18-21 | one fresh framebuffer name, nothing attached |
| Framebuffers.Framebuffer.AttachColorBuffers | src/buffers/framebuffer.h:34-61 | `count` fresh textures are appended to the colour buffers, the draw-buffer list names every attachment so far, the exact calls are issued, and no framebuffer is left bound |
| Framebuffers.Framebuffer.AttachDepthBuffer | src/buffers/framebuffer.h:62-76 | one fresh renderbuffer becomes the depth buffer, the colour attachments are untouched, the exact calls are issued and no framebuffer is left bound |
| VertexArrays.Buffer.constructor | src/buffers/buffer.h:14-21 | a fresh live buffer with no uses, uploaded and unbound |
| VertexArrays.Buffer.Release | src/buffers/vertexarray.h:20-24 | one use is dropped; the buffer is deleted, with one `glDeleteBuffers`, exactly when no use is left |
| VertexArrays.Buffer.Delete | src/buffers/buffer.h:22-25 | deleting issues `glDeleteBuffers` for its name and marks it dead |
| VertexArrays.AttributeCallsUnbind | src/buffers/vertexarray.h:35-42 | after `addBuffer`'s calls no vertex array is bound, and no array buffer when the buffer is one |
| VertexArrays.VertexArray.constructor | src/buffers/vertexarray.h:12-15 | one fresh vertex-array name and no buffers |
| VertexArrays.VertexArray.AddBuffer | src/buffers/vertexarray.h:30-43 | the buffer is appended to the slots and its counter grows by one. The bind, attribute and unbind calls are issued. The reference-count invariant over all live vertex arrays is kept |
| VertexArrays.VertexArray.Destroy | src/buffers/vertexarray.h:16-28 | each counter drops by the number of slots referring to it. A buffer stays live exactly while its counter is positive. One deletion is issued per buffer whose last reference this was, then the vertex array is deleted. The invariant then holds for the remaining vertex arrays and the live buffers |
| VertexArrays.VertexArray.ReleaseBuffers | src/buffers/vertexarray.h:18-25 | the destructor loop: counters drop by the slot counts and the deletions are issued in slot order |
| VertexArrays.ReleaseSlot | src/buffers/vertexarray.h:20-24 | one round of the destructor loop keeps the loop invariant |
| VertexArrays.ReleasedExactlyLast | src/buffers/vertexarray.h:18-25 | the buffers the destructor loop deletes (`Released`) are exactly those it held the last references to, each exactly once, and no other |
| VertexArrays.ReleaseCommandsDeleteReleased | src/buffers/vertexarray.h:18-25 | the calls the destructor issues (`ReleaseCommands`, which `Destroy` and `ReleaseBuffers` state) are one `glDeleteBuffers` per buffer in `Released`, in the same order |
| VertexArrays.AddKeepsExact | src/buffers/vertexarray.h:32-33 | one more slot and one more use of the same buffer keep every counter equal to the number of slots referring to it |
| VertexArrays.DestroyKeepsExact | src/buffers/vertexarray.h:16-28 | after a destructor the counters of the survivors equal the slots of the remaining vertex arrays |
| VertexArrays.DestroyAllowed | src/buffers/vertexarray.h:20-21 | under the invariant no counter is decremented below zero by a destructor |
| VertexArrays.CountsMatchAfterAdd | src/buffers/vertexarray.h:32-33 | the value-level invariant survives `addBuffer` |
| VertexArrays.CountsMatchAfterRelease | src/buffers/vertexarray.h:18-25 | the value-level invariant survives a destructor, with exactly the buffers whose counter stayed positive or that were not referenced surviving |
| VertexArrays.AdmitBuffer | src/buffers/buffer.h:9 | a new buffer with `uses == 0` joins the invariant |
| VertexArrays.AdmitVertexArray | src/buffers/vertexarray.h:12-15 | a new empty vertex array joins the invariant |
| Meshes.SamplerNameReadsOrdinal | src/mesh/mesh.cpp:20-29 | a sampler name is `material.` plus the role; for the four numbered roles it is followed by digits reading as the texture's 1-based ordinal among textures of its role, for any other role by nothing |
| Meshes.SamplerNamesDistinct | src/mesh/mesh.cpp:20-29 | two textures with numbered roles never share a sampler name |
| Meshes.SamplerNameIgnoresOtherRoles | src/mesh/mesh.cpp:11-28 | inserting a texture of another role anywhere leaves every sampler name unchanged: the counters are per role |
| Meshes.CountTypeGrows | src/mesh/mesh.cpp:21-28 | a texture of a role raises the ordinal of every later texture of that role |
| Meshes.CountersGiveRoleName | src/mesh/mesh.cpp:11-28 | with each counter one past the earlier textures of its role, the loop's name for texture i is its role name |
| Meshes.TextureBindings | src/mesh/mesh.cpp:16-31 | three calls per texture |
| Meshes.BindingsAt | src/mesh/mesh.cpp:18-30 | texture i: unit i made active, its sampler set to i, the texture bound |
| Meshes.BindingsDrawNothing | src/mesh/mesh.cpp:16-31 | binding textures draws nothing and leaves the last texture's unit active |
| Meshes.AttributeLayout | src/mesh/mesh.cpp:60-78 | attributes 0–4 are each enabled and read with stride 60 from non-overlapping slots, in order, inside one vertex |
| Meshes.SetupLeavesNothingBound | src/mesh/mesh.cpp:46-81 | uploading leaves no vertex array bound, the vertex buffer bound as array buffer, and draws nothing |
| Meshes.ElementDrawLeavesNothingBound | src/mesh/mesh.cpp:39-43 | one indexed draw of `count` indices, then no vertex array bound and unit 0 active |
| Meshes.DrawCommandsDrawOnce | src/mesh/mesh.cpp:34-44 | drawing a mesh is one indexed draw of all its indices and leaves no vertex array bound and unit 0 active, whatever was bound before |
| Meshes.InstancedElementDrawKeepsArray | src/model/model.cpp:20-23 | one instanced draw, and the mesh's vertex array stays bound |
| Meshes.InstancedCommandsDrawOnce | src/model/model.cpp:19-23 | instanced drawing of a mesh is one instanced draw of all its indices and leaves its vertex array bound |
| Meshes.Mesh.constructor | src/mesh/mesh.cpp:3-7 | geometry and textures stored as given; vertex array, vertex buffer and index buffer named in that order; the setup calls issued |
| Meshes.Mesh.InitDraw | src/mesh/mesh.cpp:9-32 | the loop with its four role counters issues exactly `TextureBindings` of all textures: texture i on unit i under `material.` plus its numbered role name. The counters restart at 1 on every call, so every call issues the same calls |
| Meshes.Mesh.Draw | src/mesh/mesh.cpp:34-44 | the bindings then the element draw; one draw of all indices; no vertex array bound and unit 0 active afterwards |
| Models.LastSlash | src/model/model.cpp:41 | finds the last `/` among the first n characters, or reports there is none |
| Models.Directory | src/model/model.cpp:41 | the directory is the path before its last `/`, or the whole path when it has none |
| Models.DirectoryOfTextureFile | src/model/model.cpp:41 | the directory of `dir/path`, for a path without `/`, is `dir` again |
| Models.FlattenTriangles | src/model/model.cpp:97-102 | after triangulation, index 3i + c of the mesh is corner c of face i |
| Models.FlattenLength | src/model/model.cpp:97-102 | after triangulation there are three indices per face |
| Models.FlattenFaces | src/model/model.cpp:97-102 | the nested loop lays every face's indices end to end, face after face |
| Models.FindFrom | src/model/model.cpp:132-140 | a cache hit is a position inside the cache |
| Models.FindFromFinds | src/model/model.cpp:132-140 | a miss means no cached texture has the path; a hit has it |
| Models.LoadSlots | src/model/model.cpp:127-151 | one texture per slot |
| Models.LoadSlotCases | src/model/model.cpp:131-150 | a cached path gets the cached texture and changes nothing. An uncached path gets a freshly named texture with the requested role and the path; it is appended to the cache and loaded from `directory/path` |
| Models.LoadSlotKeepsCache | src/model/model.cpp:131-150 | loading a slot keeps the cache free of duplicate paths, with every name already handed out, and only adds to the state |
| Models.LoadSlotsKeepCache | src/model/model.cpp:127-151 | the same for all the slots of one type |
| Models.LoadSlotsFollowSlots | src/model/model.cpp:127-151 | texture k of a type has slot k's path |
| Models.LoadMaterialKeepsCache | src/model/model.cpp:104-119 | loading a material's four types keeps the cache free of duplicates |
| Models.LoadMaterialFollowsSlots | src/model/model.cpp:104-119 | a mesh's texture k has the path of material slot k: diffuse slots first, then specular, then height (as normal maps), then ambient (as height maps) |
| Models.BuiltInOrderAppend | src/model/model.cpp:61-64 | meshes built in two runs, one after the other, were built in the concatenated order |
| Models.ForestStep | src/model/model.cpp:61-64 | the pre-order list grows by each child's subtree in turn |
| Models.ElementDraws | src/model/model.cpp:11-12 | one draw per mesh |
| Models.DrawMeshesDrawEach | src/model/model.cpp:9-13 | drawing a model draws every mesh once, in order, and leaves no vertex array bound and unit 0 active |
| Models.InstancedDrawsDrawEach | src/model/model.cpp:15-25 | instanced drawing draws every mesh once, in order, and leaves the last mesh's vertex array bound |
| Models.Model.constructor | src/model/model.cpp:27-51 | a missing, incomplete or rootless scene leaves the model empty and issues nothing. Otherwise the directory comes from the path, the meshes are built from the scene meshes the tree names in pre-order, and the cache holds no duplicates |
| Models.Model.ProcessNode | src/model/model.cpp:53-65 | appends exactly the meshes of the subtree, in pre-order: the node's own meshes, then each child's subtree left to right |
| Models.Model.ProcessMeshes | src/model/model.cpp:55-59 | appends one mesh per mesh index, in order |
| Models.Model.AddMesh | src/model/model.cpp:57-58 | appends the mesh built from one scene mesh |
| Models.Model.ProcessMesh | src/model/model.cpp:67-122 | the mesh has the scene mesh's vertices (zero texture coordinates when it has none), its faces' indices, and the material's textures as the cache gives them; the mesh is then uploaded |
| Models.Model.LoadMaterialTextures | src/model/model.cpp:124-154 | the slot loop returns and caches exactly what `LoadType` specifies |
| Models.Model.LoadTexture | src/model/model.cpp:129-150 | one slot does exactly what `LoadSlot` specifies |
| Models.Model.FindCached | src/model/model.cpp:131-140 | the scan that stops at the first match finds the first cached texture with the path |
| Models.Model.Draw | src/model/model.cpp:9-13 | the calls of every mesh's draw, in mesh order; one indexed draw per mesh; nothing left bound |
| Models.Model.InstancedDraw | src/model/model.cpp:15-25 | every mesh's bindings and instanced draw in mesh order; one instanced draw per mesh; the last mesh's vertex array stays bound |
| Pipelines.RenderableDrawsEachMesh | src/renderables/Renderable.h:14-18 | a queued model draws each of its meshes once, in order |
| Pipelines.EmissiveDrawsEachMesh | src/renderables/Emissive.h:13-18 | a queued emissive model draws each of its meshes once, in order |
| Pipelines.GeometryDrawsInOrder | src/pipeline/pipeline.h:82-83 | the geometry pass's draws are each queued model's mesh draws, in queue order |
| Pipelines.EmissiveDrawsInOrder | src/pipeline/pipeline.h:132-133 | the light-geometry pass's draws are each queued emissive model's mesh draws, in queue order |
| Pipelines.LightUniforms | src/pipeline/pipeline.h:103-104 | one uniform write per light |
| Pipelines.LightUniformsAt | src/pipeline/pipeline.h:103-104 | light k writes its uniforms k-th |
| Pipelines.LightUniformsDrawNothing | src/pipeline/pipeline.h:103-104 | writing light uniforms draws nothing |
| Pipelines.UnitBindings | src/pipeline/pipeline.h:168-172 | two calls per texture |
| Pipelines.UnitBindingsAt | src/pipeline/pipeline.h:168-172 | unit i is made active and texture i is bound right after |
| Pipelines.UnitBindingsDrawNothing | src/pipeline/pipeline.h:168-172 | binding textures to units draws nothing |
| Pipelines.GBufferUnits | src/pipeline/pipeline.h:96-101 | the G-buffer's three textures go to units 0, 1 and 2 in turn |
| Pipelines.QuadDrawOnce | src/pipeline/pipeline.h:107-109 | the quad is one four-vertex strip and leaves no vertex array bound |
| Pipelines.ThenQuadDrawsOnce | src/pipeline/pipeline.h:173-175 | calls that draw nothing, followed by the quad, draw the quad once |
| Pipelines.LightingDrawsOnce | src/pipeline/pipeline.h:92-109 | the lighting pass draws the quad once, whatever the lights |
| Pipelines.BlurSteps | src/pipeline/pipeline.h:146-156 | five calls per blur step |
| Pipelines.BlurStepsAt | src/pipeline/pipeline.h:146-156 | step i occupies calls 5i to 5i+4 of the schedule |
| Pipelines.BlurSchedule | src/pipeline/pipeline.h:142-155 | step i renders into target 1 - i mod 2, the `horizontal` uniform is 1 on even steps and 0 on odd ones, and every step after the first samples the target the previous step rendered into |
| Pipelines.BlurStepsDraws | src/pipeline/pipeline.h:146-156 | every blur step draws the quad exactly once |
| Pipelines.QuadAdmitted | src/pipeline/pipeline.h:35-36 | the quad's vertex array and its new buffer satisfy the reference-count invariant |
| Pipelines.CreateParts | src/pipeline/pipeline.h:24-27 | the blur targets, the G-buffer and the quad's vertex array get consecutive fresh names in member order, empty |
| Pipelines.Assemble | src/pipeline/pipeline.h:33-47 | the names of all parts, the G-buffer's 3 textures and depth buffer, each blur target's texture, 11 names in all, and no framebuffer left bound |
| Pipelines.SetUp | src/pipeline/pipeline.h:35-43 | the quad is set up first, then the framebuffers' attachments, 7 names in all |
| Pipelines.SetUpQuad | src/pipeline/pipeline.h:35-37 | one array buffer, referred to by both quad slots, with two uses and the invariant holding |
| Pipelines.SetUpTargets | src/pipeline/pipeline.h:39-43 | 3 colour textures and a depth buffer on the G-buffer, then one colour texture on each blur target, no framebuffer left bound |
| Pipelines.AddQuadAttributes | src/pipeline/pipeline.h:36-37 | both quad attributes refer to the same buffer, whose counter is 2, and the invariant holds |
| Pipelines.Pipeline.constructor | src/pipeline/pipeline.h:33-47 | empty queues. The blur targets, the G-buffer and the quad's vertex array are named in member order, then the quad buffer, shared by both quad slots with two uses under the reference-count invariant. The G-buffer gets three colour textures at attachments 0–2 and a depth buffer, each blur target one colour texture and no depth buffer: 11 names in all, and no framebuffer left bound |
| Pipelines.Pipeline.PushToGeometryQueue | src/pipeline/pipeline.h:55-58 | appends to the geometry queue and leaves the other queues alone |
| Pipelines.Pipeline.PushToLightQueue | src/pipeline/pipeline.h:60-63 | appends to the light queue and leaves the other queues alone |
| Pipelines.Pipeline.PushToEmissiveQueue | src/pipeline/pipeline.h:65-68 | appends to the emissive queue and leaves the other queues alone |
| Pipelines.Pipeline.GeometryPass | src/pipeline/pipeline.h:70-86 | returns the G-buffer; clears it, sets the camera uniforms and draws every queued model, in queue order, each mesh once |
| Pipelines.Pipeline.LightingPass | src/pipeline/pipeline.h:88-112 | returns its input; binds the G-buffer textures to units 0–2, writes every light's uniforms in queue order, draws the quad exactly once |
| Pipelines.Pipeline.BlitGBuffer | src/pipeline/pipeline.h:114-122 | the G-buffer is the read and the target the draw framebuffer when the depth blit runs; neither is bound afterwards |
| Pipelines.Pipeline.LightGeometryPass | src/pipeline/pipeline.h:124-135 | returns its input; draws every queued emissive model, in queue order, each mesh once |
| Pipelines.Pipeline.BlurPass | src/pipeline/pipeline.h:137-159 | the ten steps follow `BlurSteps`, the first sampling the input's second colour texture; exactly ten quad draws; the result is the target the last step rendered into |
| Pipelines.Pipeline.FinalPass | src/pipeline/pipeline.h:161-177 | renders to the default framebuffer, binds texture i to unit i for every i, draws the quad exactly once |

## Left out

- Shaders, the window, the importer's file parsing, `read_file` and the
  image decoder are outside the model. The decoder is a map from file names
  to image sizes and channel counts. A shader is the number of its program.
  Uniform values that are matrices or vectors are recorded by uniform name
  only.
- `Pipeline::UpdateProjectionView`, `Camera::update`, `getView` and
  `getReverseView` compute matrices and direction vectors by
  floating-point trigonometry, which is not modelled. The camera's angles and
  field of view are reals, so single-precision rounding is not modelled
  either.
- `Light::SetShaderValues` is implemented by each kind of light (point, spot,
  directional) outside this core. The lighting pass records one
  `SetLightUniforms` call per light, named after the light's uniform struct.
  The queue holds the lights themselves rather than their addresses, which
  is the same as long as lights do not change while queued.
- `Transform` (the model matrix) is recorded as the `model` uniform by name.
- The camera's `Front`, `Right` and `Up` vectors are not fields of the model,
  because only `Camera::update` changes them, by trigonometry. The clamping
  methods' frames show they touch nothing but their own field.
- Models.Model.ProcessMesh: a scene mesh without texture coordinates gets
  zero ones. The source leaves them to `glm::vec3`'s default constructor,
  which zeroes them only in GLM configurations that initialise by default.
- The importer's guarantees are preconditions (`SceneOk`). A mesh has one
  normal, tangent, bitangent and, when present, texture coordinate per
  vertex, and a material index that names a material. A node names only
  meshes of the scene. `mMaterialIndex >= 0` is always true for the
  unsigned field, so the material is always read.
- The `normalized` argument of the attribute calls (`GL_FALSE` or, in
  `setupMesh`, `GL_FLOAT`) and the address of the data uploaded are not
  recorded; buffer uploads record only their size in bytes.
- `Buffer::bindBufferRange` and `Buffer::setBufferSubData` are not used by
  the core and are not modelled.
- Object names come from one counter that every kind of object shares and
  that only grows. A driver keeps a name space per kind and may reuse the name of
  a deleted object, so the consecutive names that `GenMany`, the `Mesh` and
  `Pipeline` constructors and `CreateParts` state, and their totals, are
  properties of the model rather than of the driver. That no name is live
  twice is what the model relies on.
- The `_DEBUG` completeness checks (`glCheckFramebufferStatus`) and every
  console message are left out.
- Models.Model.constructor: follows the debug build, which rejects a
  missing, incomplete or rootless scene. The release build skips that check
  and dereferences the scene anyway, which the model does not reproduce.
- Models.Model.constructor: states only that the name generator and the
  call list grow, not the exact calls of the whole load. The calls are
  stated per mesh by `ProcessMesh` and per slot by `LoadTexture`.
- Models.Model.ProcessNode: states the meshes it appends and the cache
  invariant, not the exact calls, for the same reason.
- Pipelines.Pipeline.constructor: states the names, attachments, reference
  counts and final framebuffer binding, not the full list of calls. Those
  are stated by `AttachColorBuffers`, `AttachDepthBuffer`, `AddBuffer` and
  the `Buffer` constructor.
- `GLuint` counters and `GLsizei` sizes are unbounded naturals. In
  particular, `Buffer.uses` cannot wrap below zero: the reference-count
  invariant shows no destructor ever decrements a zero counter.
- The source returns framebuffers by value, as copies of the `Framebuffer`
  object. The model returns the `Framebuffer` object itself; the copy
  shares every name with it.
- The Pipeline and Model destructors are not modelled. Neither class
  declares one; only the quad's `VertexArray` member would run its own,
  modelled as `VertexArray.Destroy`.
