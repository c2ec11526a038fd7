# model_loading in Dafny

This project models the sequential core of the `model_loading` OpenGL viewer and proves properties of that model:

- **The model loader (`Model`).** It imports an Assimp scene into meshes. Nodes are visited in pre-order. Each mesh gets its vertices, face indices and textures, and the textures are shared through a cache keyed by path.
- **The bounding box.** The loader keeps a running min/max box over all vertex positions, plus its center.
- **Normalization.** The model can be rescaled into a target interval. The largest dimension is stretched onto the interval. The other two are multiplied by the same factor.
- **`Mesh`.** The mesh constructor, the GPU upload state, and the texture-unit and sampler-uniform assignment of its draw call.
- **The profile helpers.** `average`, the tokenizer `parseLine`, and the key/value pairing of `readProfile`.
- **The camera's scalar state.** Pitch and field-of-view clamping, zoom, turning and movement.
- **The frame timer.**

Floats are modelled as `real`, and `std::numeric_limits<float>::max()` is the exact constant `BoundingBox.SEED`. GL, Assimp, stb_image and glm's trigonometry are not executed; the model records what they receive or takes them as parameters:

- The Assimp scene is a value of `Scene.AiScene`.
- `glGenTextures` is a counter, `nextTextureId`.
- The files `stbi_load` reads go into a log, `textureLoads`.
- A mesh's GPU buffers are the field `gpu`.
- `Mesh::draw` returns the GL calls it would make: the texture binds, the vertex-array bind and unbind, and the draw. The vertex-array name itself is not modelled.
- The camera's front and side vectors come from functions handed to its constructor.

Modules, in dependency order:

| module | file | models |
|---|---|---|
| `Wrappers` | wrappers.dfy | `Option` and `Result` |
| `Geometry` | geometry.dfy | `Vertex` and `Texture` (src/mesh.hpp), the X/Y/Z axes (src/model.hpp) |
| `Sequences` | sequences.dfy | concatenation of lists of lists |
| `Helpers` | helpers.dfy | src/helpers.hpp |
| `Scene` | scene.dfy | the Assimp scene as a tree datatype |
| `TextureCache` | texture_cache.dfy | the path-keyed texture cache of `loadMaterialTextures` |
| `Meshes` | mesh.dfy | src/mesh.cpp |
| `SceneImport` | scene_import.dfy | functions stating what `processNode`/`processMesh` build |
| `BoundingBox` | bounding_box.dfy | the running min/max scan of `calculateBoundingBox` |
| `Normalization` | normalization.dfy | the remapping of `normalize` |
| `Models` | model.dfy | the `Model` class of src/model.cpp |
| `Cameras` | camera.dfy | src/camera.cpp |
| `Timers` | timer.dfy | src/timer.hpp |

The methods of `Models.Model`, `Meshes.Mesh`, `Cameras.Camera` and `Timers.Timer` update fields in place, as the source does. Each method is proved against a functional specification:

- `ProcessNode` appends exactly `SceneImport.ImportMeshes` of the node's pre-order mesh list.
- `LoadMaterialTextures` returns, and leaves the cache in, exactly what `TextureCache.AcquireAll` gives.
- `CalculateBoundingBox` sets the box to `BoundingBox.BoxOf` of all vertices.
- `Normalize` replaces the mesh data by `Models.NormalizeData`.

The lemmas beside those functions state what the source promises.

## How the code behaves at its edges

- **Inverted boxes.** `calculateBoundingBox` updates the maximum only in an `else if` after the minimum (src/model.cpp:274-290).
  - A coordinate that lowers the running minimum is never compared with the maximum.
  - The first vertex therefore never moves a maximum off `-SEED`, and the box can come out inverted, with min > max, even for a non-empty vertex set (`BoundingBox.InvertedBoxExample`, `BoundingBox.SingleVertexBox`).
  - The seeds are `±FLT_MAX`, not infinities.
- **Tie-breaking.** The largest-dimension chain `magY > magX ? magZ > magY ? Z : Y : X` (src/model.cpp:81) uses strict comparisons, so ties go to the earlier axis. Z is never looked at when Y does not beat X (`Normalization.DominantSkipsZ`).
- **Stretch divisor.** The stretch of the largest dimension divides by the signed `max - min` (src/model.cpp:97, 103, 109), not by its magnitude.
  - On a box whose chosen axis has min < max, all three axes are scaled by the same factor, so proportions are kept (`Normalization.UniformScale`).
  - On an inverted box the divisor is negative: the chosen axis is mirrored while the other two are not, so the model comes out reflected (`Normalization.MirroredScale`). A single vertex off the origin already gives such a box (`Normalization.MirroredBoxExample`).
- **Worked example.** For the box [0,10]x[0,2]x[0,2] mapped onto [-1,1], y = 2 maps to 2 * (2 * 0.1) = 0.4: the other axes are multiplied by (hi - lo) * scaleFactor, not by scaleFactor alone (`Normalization.BoxExample`).
- **Material index 0.** Materials are read only when `mMaterialIndex > 0` (src/model.cpp:183), so a mesh with material 0 gets no textures.
- **Incomplete scenes.** A scene counts as incomplete only when `mFlags` equals `AI_SCENE_FLAGS_INCOMPLETE` (src/model.cpp:28). This is an equality test, not a bit test.
- **Image decode failures.** A failed image decode is not checked in `loadTexture`. Only the three scene conditions are fatal.
- **Texture numbering.** The per-type numbering `diffuse0`, `diffuse1`, … is computed in `Mesh::draw`, on every draw call.
- **`reload`.** `normalize` calls `meshes[i].reload()` (src/model.cpp:118), which src/mesh.hpp does not declare. It is modelled as `Meshes.Mesh.Reload`, one more upload of the current lists.

## Model

| member | source | states |
|---|---|---|
| Geometry.Abs | src/model.cpp:77-79 | `fabsf`: the result is non-negative and is the argument or its negation |
| Helpers.Average | src/helpers.hpp:26-37 | the loop returns the sum over the count; for two values, their midpoint; the list must not be empty |
| Helpers.AverageBetween | src/helpers.hpp:26-37 | the average of values that all lie in [lo, hi] lies in [lo, hi] |
| Helpers.SplitJoin | src/helpers.hpp:79-85 | splitting on a delimiter as `getline` does loses nothing: the pieces joined back give the input, and no piece holds the delimiter |
| Helpers.GetlineAppend | src/helpers.hpp:79 | `getline` extracts the text before the first delimiter, then goes on with the rest |
| Helpers.GetlineNoDelim | src/helpers.hpp:79 | a text without the delimiter is extracted whole, and an empty text gives nothing |
| Helpers.ParseLine | src/helpers.hpp:70-96 | `parseLine` returns exactly `Tokens(line)`: lines taken in order, lines starting with a space or '#' skipped, each other line's tokens appended |
| Helpers.ParseItems | src/helpers.hpp:85-91 | the inner loop keeps the non-empty space-separated pieces and stops at the first piece starting with '#' |
| Helpers.TokensShape | src/helpers.hpp:79-93 | every returned token is non-empty, holds no space and no newline, and does not start with '#' |
| Helpers.WordTokensCut | src/helpers.hpp:85-90 | up to the first piece starting with '#', the tokens are exactly the non-empty pieces, in order |
| Helpers.SingleLineTokens | src/helpers.hpp:80-91 | a line starting with a space or '#' yields nothing; any other line yields its non-empty space-separated pieces before the first piece starting with '#' |
| Helpers.TokensConcat | src/helpers.hpp:79-93 | a text of several lines is tokenized line by line, and the results are concatenated in order |
| Helpers.HashInsideTokenKept | src/helpers.hpp:86-89 | a '#' inside a token does not end it: "a#b c" gives ["a#b", "c"] |
| Helpers.TabDoesNotSeparate | src/helpers.hpp:85 | only ' ' separates: a tab stays inside the token |
| Helpers.TrailingCommentDropped | src/helpers.hpp:86-87 | a piece starting with '#' drops itself and the rest of the line |
| Helpers.ReadProfile | src/helpers.hpp:115-121 | the loop over lines and token pairs returns exactly `Profile(contents)`, or the out-of-range error |
| Helpers.PairUpParity | src/helpers.hpp:118-119 | pairing the tokens of a line succeeds exactly when their number is even |
| Helpers.PairUpSnoc | src/helpers.hpp:118-120 | one more (key, value) pair overrides that key and leaves the rest of the map as it was |
| Helpers.PairUpUntouched | src/helpers.hpp:118-120 | a key that is never at an even position keeps its old value, or stays absent |
| Helpers.PairUpLastWins | src/helpers.hpp:118-120 | a repeated key keeps the value after its last occurrence |
| Helpers.PairUpAppend | src/helpers.hpp:118-120 | pairing two token lists in a row, the first of even length, is pairing the first and then the second from the resulting map |
| Helpers.ProfileLinesFlat | src/helpers.hpp:115-121 | when every line has an even number of tokens, the line loop succeeds and equals one pairing of all lines' tokens concatenated |
| Helpers.ProfileIsPairedTokens | src/helpers.hpp:115-121 | when every line of the file has an even number of tokens, `readProfile` gives the pairing of the whole file's tokens |
| Helpers.ProfileLastWins | src/helpers.hpp:115-121 | across all lines, a key takes the value after its last even-position occurrence in the file: a later line overrides an earlier one |
| Helpers.TwoWordLine | src/helpers.hpp:79-93 | a line of two words holding no space, newline or leading '#' yields exactly those two tokens |
| Helpers.ProfileLinesOddFails | src/helpers.hpp:119 | a profile with any line of an odd number of tokens fails with the out-of-range error of `variables.at(i+1)` |
| Scene.PreorderInRange | src/model.cpp:127-134 | in a well-formed tree, every mesh index of the pre-order list names a mesh of the scene |
| Scene.PreorderExample | src/model.cpp:124-136 | root -> [childA(mesh 0), childB(mesh 1, mesh 2)] flattens to [0, 1, 2] |
| TextureCache.JoinPath | src/model.cpp:238-239 | the file name is the directory, one '/', then the texture path |
| TextureCache.FindByPath | src/model.cpp:215-221 | the search finds the first cached entry with the path, or reports that none has it |
| TextureCache.AcquireSpec | src/model.cpp:211-230 | one slot: the texture has the slot's path and is cached. A cached path returns its entry unchanged, keeping its original type, with no load. A new path is loaded once under the next name and appended. The cache stays valid: distinct paths, names in order |
| TextureCache.AcquireAllExtends | src/model.cpp:210-231 | a slot list keeps the cache valid. Old entries and loads are kept. Each new entry has this type and the next fresh name, and its file is read once, in order |
| TextureCache.AcquireAllPaths | src/model.cpp:210-231 | one texture per slot, in slot order; entry i has slot i's path and is in the cache |
| TextureCache.AcquireAllCached | src/model.cpp:215-219 | a slot whose path was already cached gets exactly the cached entry |
| TextureCache.SamePathSameTexture | src/model.cpp:210-231 | two slots naming the same path get the same texture |
| TextureCache.NewPathLoadedOnce | src/model.cpp:224-230 | a requested path not yet cached ends up in exactly one new cache entry |
| TextureCache.AcquireAllExample | src/model.cpp:210-231 | [p, p] reads the file once and shares the texture; [p, q] reads both and hands out two names |
| Meshes.Decimal | src/mesh.cpp:73-75 | `std::to_string` of a counter has at least one digit, and two or more exactly from 10 up |
| Meshes.DecimalInjective | src/mesh.cpp:73-75 | different counters give different digit strings |
| Meshes.CounterBeforeGrows | src/mesh.cpp:66-75 | a counter never decreases along the list, and it grows past each texture it numbers |
| Meshes.UniformNamesDistinct | src/mesh.cpp:72-78 | with only "diffuse" and "specular" textures, no two textures of a mesh get the same sampler uniform |
| Meshes.UniformNameExample | src/mesh.cpp:73-75 | the counters run per type, and any type other than exactly "diffuse" takes the specular counter |
| Meshes.BindCallsAt | src/mesh.cpp:69-79 | texture i selects unit i, gets its sampler uniform set to i, and is bound there |
| Meshes.Mesh.constructor | src/mesh.cpp:10-17 | the three lists are stored exactly as given, with nothing on the GPU |
| Meshes.Mesh.Load | src/mesh.cpp:19-49 | the GPU buffers hold the current vertices and indices |
| Meshes.Mesh.Reload | src/model.cpp:118 | the re-upload: the GPU buffers hold the current vertices and indices again |
| Meshes.Mesh.Unload | src/mesh.cpp:51-62 | the buffers are deleted |
| Meshes.Mesh.Draw | src/mesh.cpp:64-87 | the bind calls for every texture with its `material.<type><n>` name, then unit 0 is reselected, the mesh's vertex array is bound, all `indices.size()` indices are drawn, and the vertex array is unbound |
| SceneImport.ImportVertex | src/model.cpp:148-170 | vertex i copies position and normal i, plus channel 0's (x, y) when the channel exists and (0, 0) otherwise |
| SceneImport.ImportVertices | src/model.cpp:146-171 | exactly one vertex per source vertex, in order |
| SceneImport.MeshTexturesSpec | src/model.cpp:183-193 | material 0 gives no textures and no loads. Otherwise one texture per diffuse slot, then one per specular slot, each with its slot's path and in the cache. The cache stays valid and keeps its entries |
| SceneImport.ImportMeshesAppend | src/model.cpp:124-136 | importing two index lists one after the other is importing their concatenation |
| SceneImport.ImportMeshesShape | src/model.cpp:138-199 | one mesh per index, each with its source mesh's vertices and face indices; the cache stays valid and only grows |
| SceneImport.TriangleIndices | src/model.cpp:174-180 | a triangulated mesh yields three indices per face |
| SceneImport.IndicesInRange | src/model.cpp:174-180 | faces naming vertices of the mesh give index data naming vertices of the imported mesh |
| BoundingBox.Center | src/model.cpp:294-296 | the center is equally far from the minimum and the maximum on every axis |
| BoundingBox.ScanMinExact | src/model.cpp:267-290 | with coordinates inside [-SEED, SEED], the minimum is at most every coordinate and is the seed or one of them |
| BoundingBox.ScanMaxMisses | src/model.cpp:268-290 | the maximum is -SEED or a coordinate; a coordinate above it is one that lowered the running minimum when scanned |
| BoundingBox.EmptyBox | src/model.cpp:267-268 | without vertices the minima stay at SEED and the maxima at -SEED |
| BoundingBox.SingleVertexBox | src/model.cpp:274-290 | a single vertex sets every minimum and leaves every maximum at -SEED |
| BoundingBox.InvertedBoxExample | src/model.cpp:274-278 | x = 1 then x = 0 gives minX = 0 above maxX = -SEED |
| Normalization.Magnitude | src/model.cpp:77-79 | the magnitude of an axis is non-negative and zero exactly when the axis is flat |
| Normalization.LargestDimension | src/model.cpp:81 | Z iff magY > magX and magZ > magY; Y iff magY > magX and not magZ > magY; X iff magY <= magX |
| Normalization.ScaleFactor | src/model.cpp:83-87 | positive, and the reciprocal of the chosen dimension's magnitude |
| Normalization.SwitchScaleAgrees | src/model.cpp:81-87 | on the box's magnitudes, the chain picks the dominant axis and the switch yields `ScaleFactor` |
| Normalization.StretchEndpoints | src/model.cpp:97 | the stretch maps l to lo and h to hi |
| Normalization.StretchWithin | src/model.cpp:97 | a value in [l, h] is stretched into [lo, hi] |
| Normalization.NormalizePosition | src/model.cpp:95-115 | each coordinate is remapped by the rule for its own axis |
| Normalization.NormalizeVertex | src/model.cpp:113-115 | only the position changes; normal and texture coordinates are kept |
| Normalization.NormalizeVertices | src/model.cpp:90-116 | the same number of vertices, each normalized |
| Normalization.SwitchCoordAgrees | src/model.cpp:95-111 | the switch's formula for a coordinate, with the precomputed size, dimension and factor, is the remapping onto [min, max] |
| Normalization.SwitchPositionAgrees | src/model.cpp:95-115 | the three assignments after the switch give the normalized position |
| Normalization.DominantEndpoints | src/model.cpp:95-111 | the box ends of the chosen dimension land exactly on lo and hi |
| Normalization.DominantWithin | src/model.cpp:95-111 | on the chosen dimension, a coordinate inside the box lands inside [lo, hi] |
| Normalization.UniformScale | src/model.cpp:95-111 | when the chosen axis has min < max, all three axes multiply coordinate differences by the same (hi - lo) * scaleFactor, so proportions are kept |
| Normalization.MirroredScale | src/model.cpp:95-111 | when the chosen axis has min > max, the chosen axis multiplies coordinate differences by -(hi - lo) * scaleFactor and the other two by +(hi - lo) * scaleFactor: the chosen axis is mirrored |
| Normalization.MirroredBoxExample | src/model.cpp:274-290 | the box of the single vertex (1, 0, 0) can be normalized, chooses X, and has min > max on X, so the mirrored case occurs |
| Normalization.DominantSkipsZ | src/model.cpp:81 | ties go to the earlier axis, and Z is ignored when Y does not beat X |
| Normalization.UnitCubeFixed | src/model.cpp:76-111 | the cube [-1, 1]^3 mapped onto [-1, 1] is unchanged |
| Normalization.BoxExample | src/model.cpp:76-111 | [0,10]x[0,2]x[0,2] onto [-1, 1] sends (10, 2, 2) to (1, 0.4, 0.4) and the origin to (-1, 0, 0) |
| Models.LastSlash | src/model.cpp:14 | `find_last_of('/')`: the index of the last slash, or none when there is no slash |
| Models.DirectoryOf | src/model.cpp:14 | the directory is a prefix of the path, and the whole path when it has no slash |
| Models.DirectoryJoin | src/model.cpp:14 | the directory, a '/', and the text after the last slash give the path back |
| Models.DirectoryExample | src/model.cpp:14 | "models/crate.obj" has the directory "models"; "crate.obj" keeps the whole name |
| Models.NormalizeData | src/model.cpp:89-119 | the same meshes, every vertex list normalized, indices and textures kept |
| Models.Model.constructor | src/model.cpp:10-19 | a non-empty path is kept with its directory, while an empty one leaves both empty. All six bounds and the center are 0. No meshes and no textures |
| Models.Model.LoadTexture | src/model.cpp:236-260 | a fresh texture name is handed out, and the file directory + '/' + path is read |
| Models.Model.LoadMaterialTextures | src/model.cpp:201-234 | the linear search with its flag returns exactly `AcquireAll` of the slot paths and leaves the cache as `AcquireAll` does |
| Models.Model.ProcessMesh | src/model.cpp:138-199 | a new mesh holding `ImportMesh`'s vertices, indices and textures, uploaded; the cache is as `ImportMesh` leaves it |
| Models.Model.ProcessMaterial | src/model.cpp:182-192 | material 0 gives no textures and no cache change; otherwise the diffuse then the specular textures, exactly as `MeshTextures` gives them, with the cache it leaves |
| Models.Model.AddMesh | src/model.cpp:128-129 | the processed mesh is appended as a new object; the earlier meshes are kept as a prefix |
| Models.Model.ProcessOwnMeshes | src/model.cpp:127-130 | the node's own meshes are appended in `mMeshes` order |
| Models.Model.ProcessChildren | src/model.cpp:133-135 | each child's subtree is appended in child order |
| Models.Model.ProcessNode | src/model.cpp:124-136 | exactly the pre-order imports of the subtree are appended after the existing meshes; the model stays valid |
| Models.Model.CalculateBoundingBox | src/model.cpp:262-297 | the box is `BoxOf` every vertex of every mesh, in mesh order, and the center is its midpoint |
| Models.Model.ScanMesh | src/model.cpp:271-291 | the inner loop extends the box by one mesh's vertex positions |
| Models.Model.UpdateCenter | src/model.cpp:294-296 | the center is the per-axis average of minimum and maximum |
| Models.Model.Load | src/model.cpp:21-37 | fatal exactly for a null scene, a null root or flags equal to AI_SCENE_FLAGS_INCOMPLETE, and then nothing changes. Otherwise the scene's pre-order meshes are appended, and box and center are recomputed |
| Models.Model.ImportRoot | src/model.cpp:35-36 | the root's subtree is imported: the meshes become the old ones plus `ImportScene`'s, the cache is as `ImportScene` leaves it, and box and center are recomputed over all vertices |
| Models.Model.Unload | src/model.cpp:43-51 | every old mesh's buffers are deleted, and the mesh list and texture cache are cleared |
| Models.Model.Normalize | src/model.cpp:71-122 | every vertex is remapped by the old box onto [min, max], and nothing else in the meshes changes. Every mesh is uploaded again, and the box and center are those of the new positions |
| Models.Model.NormalizeMeshes | src/model.cpp:73-119 | the factor and the chosen dimension are computed once; every mesh is remapped and uploaded again |
| Models.Model.NormalizeMesh | src/model.cpp:90-118 | one mesh's positions are remapped in place, then it is uploaded again |
| Cameras.ClampPitch | src/camera.cpp:77-86 | pitch lies in [-89, 89]: the given value inside it, the nearer bound outside |
| Cameras.ClampFov | src/camera.cpp:88-96 | fov is 0.1 at or below 0.1, 180 at or above 180, and the given value otherwise |
| Cameras.ClampIdempotent | src/camera.cpp:77-96 | clamping twice is clamping once |
| Cameras.MoveRoundTrip | src/camera.cpp:44-62 | a move followed by the opposite move over the same distance restores the position |
| Cameras.MoveZero | src/camera.cpp:44-62 | a move over distance 0 stays put |
| Cameras.Camera.constructor | src/camera.cpp:10-32 | the scalars are stored as given and pitch and fov are clamped; yaw stays as given, and front is computed from the final pitch and yaw |
| Cameras.Camera.SetPitch | src/camera.cpp:77-86 | pitch becomes the clamped value |
| Cameras.Camera.SetFov | src/camera.cpp:88-99 | fov becomes the clamped value |
| Cameras.Camera.UpdateFov | src/camera.cpp:101-104 | fov becomes the clamp of fov + delta * fov / zoomMultiplier, so it stays in [0.1, 180] |
| Cameras.Camera.UpdateOrientation | src/camera.cpp:64-75 | yaw grows by the scaled delta without wrap-around; pitch gets the clamped scaled delta and stays in [-89, 89]; front is recomputed |
| Cameras.Camera.UpdatePosition | src/camera.cpp:44-62 | only the position changes, along front for FORWARD/BACKWARD and along the side vector for LEFT/RIGHT |
| Timers.TwoUpdates | src/timer.hpp:26-31 | after update(t1) then update(t2), deltaTime is t2 - t1 and lastTime is t1 |
| Timers.RunCurrent | src/timer.hpp:26-31 | after a run of updates, currentTime is the last time given, or 0 for none |
| Timers.DeltasSum | src/timer.hpp:19-31 | from a fresh timer, the deltaTime values of a run of updates add up to the last time given |
| Timers.Timer.constructor | src/timer.hpp:19-24 | all three times start at 0 |
| Timers.Timer.Update | src/timer.hpp:26-31 | lastTime becomes the old currentTime, currentTime becomes t, and deltaTime becomes t minus the old currentTime |

## Left out

- GL calls are not modelled: the buffer and attribute set-up in `Mesh::load`/`unload`, `glUniform1i` locations, `glTexImage2D`, the texture parameters and `glGenerateMipmap`. A mesh's buffers are the field `gpu`, and `Mesh::draw` returns the calls as data.
- `Assimp::Importer::ReadFile` and its error string are not modelled. The scene is an input value, and the name the importer was given is not threaded through.
- `stbi_load` and `glGenTextures` are not modelled. A texture name is the next value of a counter starting at 1, and the file read is recorded in `textureLoads`.
- Models.Model.constructor: the texture-name counter belongs to each `Model` and starts at 1, while GL hands out names per context. src/main.cpp:191-195 loads two models into one context, and their textures would not both start at name 1, so names are unique only within one model.
- `Model::draw` and the culling switch are left out; they only loop over `Mesh::draw`.
- `printBoundingBox` and `Camera::print` are left out; they only write to the console.
- `updatePerspective`, `updateLookAtMatrix` and the view and projection matrices are left out; they are glm matrix maths.
- The trigonometric front vector and `glm::normalize(glm::cross(front, up))` are functions given to the camera's constructor (`frontOf`, `sideOf`), not computed.
- `randomNumber`, `readFile`, the file-open failure and `exit` of `readProfile`, and `stof` are not modelled. Profile values stay strings, and `ReadProfile` takes the file's contents.
- src/main.cpp, src/shader.cpp and src/shader.hpp are not part of this model.
- Float rounding, infinities and NaN are not modelled. Coordinates are reals, and `SEED` is FLT_MAX exactly.
- Models.Model.Normalize: requires a box whose chosen dimension is not flat, because the source then divides by zero and produces infinities.
- Models.Model.NormalizeMeshes: requires the same non-flat box as `Normalize`, for the same reason.
- Models.Model.Load: requires a scene that gets past the three fatal checks (present, with a root, flags not equal to AI_SCENE_FLAGS_INCOMPLETE) to be well formed (mesh indices in range, as many normals as vertices, a valid material index), which the source takes on trust from Assimp. Fatal scenes are accepted as they are.
- Models.Model.ProcessNode: requires a well-formed scene and node for the same reason as `Load`.
- Models.Model.ProcessMesh: requires a well-formed mesh for the same reason as `Load`.
- Cameras.Camera.constructor: requires a non-zero zoom multiplier, because with zero the source's zero-delta orientation update computes 0 * (fov / 0), which makes yaw NaN.
- Cameras.Camera.UpdateFov: requires a non-zero zoom multiplier, because the source then divides by zero.
- Cameras.Camera.UpdateOrientation: requires a non-zero zoom multiplier, because the source then divides by zero.
- Helpers.Average: requires a non-empty list, because the source divides 0 by 0 for an empty one.
- Models.Model.ScanMesh: each axis is advanced by the function `ScanStep`, which is the source's `if`/`else if` pair written as an expression.
- Models.Model.Unload: the texture names are never deleted in the source either, so `nextTextureId` and `textureLoads` keep their values.
