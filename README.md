# learnopengl model loader, draw pass, textures and camera, in Dafny

This project models the sequential logic of a small OpenGL demo. The
OpenGL, GLFW, Assimp and stb_image calls around that logic are replaced by
values. There are five modules:

- `Scenes` (scenes.dfy): the imported scene graph as plain datatypes.
  - Nodes hold mesh references into the scene's mesh table, plus child
    nodes. Both table entries and children may be null.
  - Meshes hold vertices, a has-normals flag, a has-texture-coordinates
    flag, faces and a material index.
  - Materials hold the relative texture paths of each kind, in slot order.
  - `Flatten` is the depth-first pre-order sequence of source meshes.
- `Textures` (textures.dfy): the texture kind and pixel-format lookups, and
  the two texture constructors.
  - Image decoding is an oracle `images: string -> Option<Image>` held by a
    `Platform` object.
  - `Platform` also holds the sequence of GL texture objects generated so
    far. The handle of the n-th object is n.
- `Meshes` (meshes.dfy): the renderer's mesh, and the draw pass. The draw
  pass's GL calls become a list of (unit, texture, sampler name) bindings
  plus the element count of the draw call.
- `Models` (models.dfy): the model loader, as a class `Model`.
  - Its fields are the mesh sequence, the directory and the texture cache
    (`map<string, Texture>`), as declared at `include/Model.hpp:24-26`.
  - Its methods are `ProcessNode`, `ProcessMesh`, `LoadMaterialTextures` and
    `CachedTexture`.
  - Each method is proved equal to a specification function of the old
    state: `NodeLoad`, `MeshLoad`, `LoadSlots` and `LoadSlot`.
  - The loader's guarantees are lemmas about those functions:
    - Meshes are appended in pre-order and are the conversions of the
      source meshes.
    - The cache only grows and never changes an entry.
    - A new path is decoded once.
    - Loading succeeds exactly when every texture path of every mesh the
      loader converts is cached or decodes; a failure names one that is
      neither.
    - After a successful load the cache holds exactly those paths, and one
      GL object was made for each.
- `Cameras` (camera.dfy): the camera's scalar state machine, as a class
  `Camera` with the fields of `include/CameraManager.hpp:27-39`.
  - Yaw, pitch and field of view are `real`.
  - Position and the front, right and up vectors are symbolic terms (`Vec`).
    The direction vectors are the terms `updateCameraVectors` would evaluate.

The C++ exceptions of the loader are modelled as error results:
- a failed import gives `ImportError`;
- an undecodable texture gives `TextureFailed(DecodeError(path))`;
- a texture kind with no shader name gives `BadTextureType(kind)`.

An error result ends the operation at the point where the exception would
have been thrown.

## Model

| member | source | states |
|---|---|---|
| Textures.ChannelsToFormat | src/Texture.cpp:10-23 | 3 channels give RGB, 4 give RGBA, and every other count, 1 and 2 included, gives RED (both directions of each). |
| Textures.TypeAsString | src/Texture.cpp:71-82 | DIFFUSE is "diffuse" and SPECULAR is "specular" (if and only if). Every other kind is a `BadTextureType` failure for that kind. |
| Textures.NewTexture | src/Texture.cpp:26-48 | An undecodable file fails before any GL object is generated. Otherwise exactly one object is appended, in the format its channel count calls for, and the texture is that object's handle with the given kind. |
| Textures.NewUntypedTexture | src/Texture.cpp:50-53 | A missing or undecodable file fails and makes no GL object. Otherwise exactly one GL object is made, with the format its channel count selects and the image's size, and the texture holds that object's handle and the kind UNKNOWN. |
| Meshes.Draw | src/Mesh.cpp:37-68 | Success holds exactly when every texture is diffuse or specular. Texture i is bound to unit i, and its sampler is "texture_" + kind + the number of same-kind textures before it. A failure stops at the first unnameable texture, with its kind, before the draw call. The draw call's element count is the number of stored indices. |
| Meshes.DecimalString | src/Mesh.cpp:59 | The decimal digits of the counter, as `std::to_string` writes them: at least one digit, one exactly below 10, and the last digit is n mod 10. |
| Meshes.DecimalStringInjective | src/Mesh.cpp:59 | Distinct counters are written as distinct strings. |
| Meshes.CountKindGrows | src/Mesh.cpp:46-57 | A kind's counter never decreases along the list, and it grows by one at each texture of that kind. |
| Meshes.SamplerNumberInRange | src/Mesh.cpp:46-57 | Every sampler number of a kind is below the number of textures of that kind. |
| Meshes.SamplerNumbersCover | src/Mesh.cpp:46-57 | Every number below a kind's count is the sampler number of some texture of that kind. With the two lemmas beside it, a kind's samplers are numbered 0 to its count minus one, each number once. |
| Meshes.SamplerNamesDistinct | src/Mesh.cpp:39-59 | No two textures of one mesh get the same sampler name. |
| Scenes.OwnMeshes | src/Model.cpp:36-46 | A node's own meshes skip null references, so there are at most as many as references, and exactly as many when none is null. |
| Scenes.OwnMeshesAreNonNull | src/Model.cpp:36-46 | There is one own mesh per reference to a non-null table entry. A mesh is an own mesh exactly when some reference names it. |
| Scenes.OwnMeshesAppend | src/Model.cpp:36-46 | Concatenating two reference lists concatenates their own meshes. |
| Scenes.FlattenCount | src/Model.cpp:34-59 | A node's flattening holds the own meshes of the references of all reachable nodes, taken in pre-order. So it has one mesh per non-null reference among them. |
| Scenes.OwnMeshesWithoutNulls | src/Model.cpp:36-46 | Without null references, the own meshes are the referenced table entries in reference order. |
| Scenes.FlattenIsPreOrder | src/Model.cpp:34-59 | The flattened mesh order is the concatenation of the own meshes of every reachable non-null node, taken in depth-first pre-order. |
| Scenes.ChildrenArePreOrder | src/Model.cpp:48-58 | The first k children contribute their reachable nodes' own meshes, children left to right and each depth first. |
| Scenes.TwoChildrenExample | src/Model.cpp:38-55 | A root with a null child between two children, and a null table entry, yields exactly the two non-null meshes, in child order. |
| Models.VerticesOf | src/Model.cpp:67-89 | A mesh with vertices but no normals gives no vertices. Otherwise vertex i carries source vertex i's position and normal, and the (u, v) of texture-coordinate channel 0 when that channel exists, (0,0) otherwise. |
| Models.ConvertVertices | src/Model.cpp:67-89 | The vertex loop yields `VerticesOf`, and reports incompleteness exactly for a mesh with vertices but no normals. |
| Models.FlattenFaces | src/Model.cpp:91-96 | The face loop's index list is the concatenation of the faces' index lists, in face order. |
| Models.ConcatLength | src/Model.cpp:91-96 | The index list's length is the sum of the per-face index counts. |
| Models.ConcatAt | src/Model.cpp:91-96 | Index j of face f sits at the position after all indices of earlier faces. |
| Models.LoadSlot | src/Model.cpp:126-136 | A cached path yields its entry and changes nothing. An uncached path is decoded; on success it becomes one new GL object with the requested kind, inserted under the path. An undecodable uncached path fails and changes nothing. |
| Models.SlotGrows | src/Model.cpp:126-136 | One slot grows the cache by at most its path, keeps every existing entry, and creates one GL object per new key. |
| Models.SlotKeepsHandles | src/Model.cpp:126-136 | After one slot, every cached texture is still a generated GL object. |
| Models.LoadSlotsSpec | src/Model.cpp:117-140 | On success there is one texture per slot, in slot order, each the cache entry for its resolved path. The cache only grows, every new key holds the requested kind, and one GL object is made per new key. Nothing changes when every path was already cached. Each new key is a path that decodes, and is one of the slot paths. Loading succeeds exactly when every slot path is cached or decodes, and a failure is the decode error of a slot path that is neither. |
| Models.LoadSlotsPrefix | src/Model.cpp:121-137 | Each iteration of the slot loop keeps the guarantees of `LoadSlotsSpec` for the slots seen so far. |
| Models.SlotsLoadedKeys | src/Model.cpp:121-137 | After all slots, the cache keys are the old keys plus the slots' resolved paths. |
| Models.SharedPathKeepsFirstKind | src/Model.cpp:126-136 | A path used as both a diffuse and a specular slot is decoded once, as diffuse. The specular slot reuses that texture, kind included, and creates no GL object. |
| Models.GrewTransitive | src/Model.cpp:117-140 | Cache growth composes: entries kept across two steps are kept across both. |
| Models.ConvertsAllKept | src/Model.cpp:126-136 | Meshes converted earlier stay consistent with the cache as it grows, because no entry is ever changed. |
| Models.SlotsFailureSticks | src/Model.cpp:130 | Once a slot fails, the rest of the loop contributes nothing: the result is that of the failing prefix. |
| Models.MaterialConverted | src/Model.cpp:98-114 | A mesh's textures are its material's diffuse textures followed by its specular textures. |
| Models.SlotInRefs | src/Model.cpp:98-114 | Every resolved diffuse or specular path of the material is one of the mesh's texture references. |
| Models.MeshLoadSpec | src/Model.cpp:61-115 | A truncated mesh converts to the empty mesh and touches nothing. Otherwise, on success, the mesh has the converted vertices, the concatenated indices, and the cache entries of its diffuse then specular paths (none for a null material). The cache only grows, and each new key is a path that decodes and is one of the mesh's texture paths. The mesh loads exactly when each of its texture paths is cached or decodes, and a failure is the decode error of one that is neither. |
| Models.NextMeshSpec | src/Model.cpp:36-46 | Visiting one more mesh reference appends that mesh's conversion, or nothing for a null reference or after a failure. |
| Models.OwnLoadSpec | src/Model.cpp:36-46 | A node's own-mesh loop appends the conversions of its non-null referenced meshes, in reference order. |
| Models.OwnFailureSticks | src/Model.cpp:45 | A failing mesh ends the own-mesh loop. |
| Models.NextChildSpec | src/Model.cpp:48-58 | Visiting one more child appends that child's flattened conversions, or nothing for a null child or after a failure. |
| Models.ChildrenLoadSpec | src/Model.cpp:48-58 | The child loop appends the conversions of each non-null child's flattening, left to right, after the node's own meshes. |
| Models.ChildrenFailureSticks | src/Model.cpp:57 | A failing child ends the child loop. |
| Models.NodeLoadSpec | src/Model.cpp:34-59 | Visiting a node appends, when it passes, exactly the conversions of its depth-first flattening, one per source mesh and in order. The cache only grows and its handles stay valid. The visit passes exactly when every texture path of every flattened mesh is cached or decodes. When it passes, the cache keys are the old keys plus exactly the texture paths of the flattened meshes. |
| Models.LoadSlotsKeys | src/Model.cpp:121-137 | The slot loop inserts no cache key other than its own resolved paths. |
| Models.MeshLoadKeys | src/Model.cpp:98-112 | Converting a mesh inserts no cache key other than the mesh's diffuse and specular paths. |
| Models.OwnLoadKeys | src/Model.cpp:36-46 | A node's own-mesh loop inserts no cache key other than the texture paths of its non-null meshes. |
| Models.ChildrenLoadKeys | src/Model.cpp:48-58 | The child loop inserts no cache key other than the texture paths of the children's flattened meshes. |
| Models.NodeLoadKeys | src/Model.cpp:34-59 | Visiting a node inserts no cache key other than the texture paths of its flattened meshes. |
| Models.ConvertedPathsCached | src/Model.cpp:126-136 | Every texture path of a converted mesh is a cache key, because each of its textures is the cache entry for its path. |
| Models.ImportedRoot | src/Model.cpp:19-23 | A root exists exactly when the importer returned a scene that is complete and has a root node. |
| Models.Model.constructor | include/Model.hpp:24-26 | A new model has the given directory, no meshes and an empty cache. |
| Models.Model.Load | src/Model.cpp:16-26 | No scene, an incomplete scene, or no root node: loading fails with the importer's message and no GL object is made; nothing is required of the scene then. Otherwise the directory is the file's parent path, and on success the meshes are the conversions of the scene's pre-order flattening. On success the cache keys are exactly the texture paths of the flattened meshes, and exactly one GL object was made per key. Loading succeeds exactly when every texture path of every flattened mesh decodes, and a failure is the decode error of one that does not. Import errors arise only from a missing root. |
| Models.Model.CachedTexture | src/Model.cpp:126-136 | The cache lookup and insertion update the model's cache and the GL objects exactly as `LoadSlot` says. |
| Models.Model.LoadMaterialTextures | src/Model.cpp:117-140 | The slot loop's result, final cache and GL objects are `LoadSlots` of the material's resolved paths. |
| Models.Model.ProcessMesh | src/Model.cpp:61-115 | The mesh conversion's result, final cache and GL objects are `MeshLoad` of the source mesh. |
| Models.Model.ProcessNode | src/Model.cpp:34-59 | The meshes already in the model are kept. The appended meshes, the outcome, the final cache and the GL objects are `NodeLoad` of the node. |
| Cameras.Clamp | src/CameraManager.cpp:84 | The result lies within the bounds, equals x when x does, and is the bound x passes otherwise. |
| Cameras.Action | src/CameraManager.cpp:37-54 | The key acted on is pressed, and no pressed key ranks before it in the order W, S, A, D, UP, DOWN. There is none exactly when no key is pressed. |
| Cameras.Camera.constructor | src/CameraManager.cpp:27-31 | Yaw -90, pitch 0, fov 45, world-up equal to the given up vector, first-mouse flag true, last position (0, 0), and direction vectors derived from the angles. |
| Cameras.Camera.UpdateCameraVectors | src/CameraManager.cpp:88-101 | Front, right and up are recomputed from yaw, pitch and world-up; nothing else changes. |
| Cameras.Camera.ProcessKeyboard | src/CameraManager.cpp:33-57 | Only the acted-on key has an effect. W and S move along the old front vector, and A and D along the old right vector, by 2.5 times the frame time. UP and DOWN set pitch to clamp(pitch ∓ 1, -89, 89). Yaw and fov never change. The result is always true. |
| Cameras.Camera.ProcessScrollInput | src/CameraManager.cpp:59-63 | fov becomes clamp(fov - yOffset, 1, 45). The x offset is ignored, and nothing else changes. |
| Cameras.Camera.ProcessMouseInput | src/CameraManager.cpp:65-86 | The offsets are 0.1 times the cursor's move since the last position, which is the current one on the first call. Yaw gets the x offset unclamped; pitch gets the y offset clamped to [-89, 89]. So the first call changes neither. The cursor position is recorded and the first-mouse flag becomes false. |

Every camera method keeps `Camera.Valid`: pitch in [-89, 89], fov in
[1, 45], and direction vectors derived from the angles. The keyboard and
scroll handlers do not have the first-mouse flag in their frames, so once a
mouse call has cleared it, nothing sets it again.

## Left out

- The OpenGL, GLFW, Assimp and stb_image calls are left out:
  - buffer and vertex-attribute setup in the `Mesh` constructor;
  - texture parameters and mipmaps;
  - `activate`;
  - binding the vertex array;
  - `Model::Draw`, `getView`, `getProjection` and `main.cpp`.
  The mesh constructor is the datatype constructor `Mesh`. `getType` is the
  field `kind` of the `Texture` value; no method writes it after
  construction.
- Meshes.Draw: the source activates the failing texture on its unit before
  `getTypeAsString` throws. The model records only complete bindings. The
  failing texture's kind and position are in the result.
- Trigonometry, normalisation, the floating-point types and their rounding
  are not modelled. Scalars are reals, so `0.1f` is exactly 0.1, and the
  double-to-float casts of the mouse and scroll offsets are the identity.
  The direction vectors are symbolic terms, not computed values.
- Path handling is simplified. `std::filesystem` `parent_path` is
  `ParentPath`, everything before the last '/'. The `/` operator is `Join`,
  which inserts one '/'. Normalisation and root names are not modelled.
- The text of error messages is not modelled beyond the importer's message.
  The message built at src/Texture.cpp:80 adds an integer to a string
  literal.
- Models.VerticesOf: the source reads `mNormals[i]` before checking
  `HasNormals`, which is undefined when normals are absent. Only the check
  is modelled.
- Models.Model.ProcessMesh: the material index is a `nat` and must index
  `scene.materials` (`MaterialResolves`), except for a mesh with vertices but
  no normals, which returns before the index is read. The source's `>= 0`
  guard always holds for its unsigned index, and the source does not check
  the index against the table, so an out-of-range index is undefined
  behaviour there and is not modelled.
- Models.Model.ProcessNode: every mesh reference of every reachable node
  must index the scene's mesh table (`NodeInScene`), and every non-null mesh
  it names must satisfy `MaterialResolves` (`MaterialsResolve`). `Load`
  requires both of the imported scene (`SceneInScope`), and only when a root
  node was imported. The source indexes `mMeshes` at src/Model.cpp:38
  without a check, so an out-of-range reference is undefined behaviour there
  and is not modelled.
- The four console messages of the loader are not modelled: "Null mesh"
  (src/Model.cpp:41), "Null node" (src/Model.cpp:53), "Null meshNormal"
  (src/Model.cpp:75) and "Null material" (src/Model.cpp:103). The control
  flow around each of them (skip the entry, or return the mesh built so far)
  is modelled.
- Models.Model.Load: after an error result, the model's partial state and
  the GL objects already made are not described. In the source, the
  exception discards the partly built model.
- Models.LoadSlotsSpec: for the whole slot loop it states how many GL
  objects are made (one per new key, `Grew`) and the kind of every new key
  (`GrewWith`), but not which handle each new key gets. That is stated per
  slot, by `SlotLoaded` in `LoadSlot`'s contract: a new path gets the next
  new GL object. Injectivity of texture handles is not stated.
- Cameras.Camera.ProcessKeyboard: the key poll (`glfwGetKey`) becomes the
  set of pressed keys.
- `getCameraPos` and `getCameraFront` are not modelled: the first is a plain
  field read, and the second is declared but never defined.
