# Texture and material registry of `SceneManager`

This project models the state that `SceneManager` keeps in the OpenGL scene
renderer. That state is the texture table and the material list. The rest of
the class consists of calls into the graphics driver and floating-point
transforms.

- **Texture table.** A fixed array of sixteen `TEXTURE_INFO { tag, ID }`
  entries and the fill counter `m_loadedTextures`. Two operations append to
  it. `CreateGLTexture` appends on success, after the image decoder returns
  pixels with three or four channels. `LoadDepthMapTexture` appends the shadow
  depth map under the reserved tag `"depthMap"`.
- **Lookups.** `FindTextureSlot` and `FindTextureID` scan the table front to
  back. The first entry with an equal tag wins, and a miss returns `-1`.
  `GetDepthMapSlot` returns the depth map's slot as an unsigned value.
- **Binding.** `BindGLTextures` binds texture unit `i` to entry `i`, so a
  texture's unit is its position in the table.
- **Materials.** `DefineObjectMaterials` appends the six scene materials
  (glass, cork, puzzle, cloth, plastic, marble) to `m_objectMaterials`.
  `FindMaterial` copies the five reflectance fields of the first material
  with a matching tag into its output parameter.
- **Wrap mode.** The `switch` in `CreateGLTexture` maps the `Wrapping` enum to
  a GL wrap mode.

Layout:

- `Lookup.dfy` (module `Lookup`) is the first-match scan as a reference
  function (`FirstIndex`), together with its characterisation
  (`IsFirstIndex`) and lemmas about uniqueness, appending and first
  occurrences.
- `SceneTypes.dfy` (module `SceneTypes`) holds the entries, the materials,
  `uint32` with the C++ conversions, the wrap-mode switch, the pixel-format
  choice, and the scene's texture and material constants.
- `SceneManager.dfy` (module `Scene`) holds the class `SceneManager`. Its
  fields are `textureIDs: array<TextureInfo>` (length 16), `loadedTextures:
  nat` and `objectMaterials: seq<ObjectMaterial>`. The lookups are `while`
  loops with the source's `index`/`bFound` structure, and each is proved
  against `FirstIndex`.

Inputs from outside the model:

- The image decoder (`stbi_load`) is represented by its answer for a file, an
  `ImageLoad`: either `LoadFailed` or `Loaded(colorChannels)`.
- The texture name that `glGenTextures` returns is a `uint32` parameter.
- GL side effects are returned as values instead. `BindGLTextures` returns
  the list of (unit, name) bindings it makes. `CreateGLTexture` returns the
  name, wrap mode and pixel format it configured.

Single-precision constants of the materials are modelled as reals; nothing
computes with them.

Three behaviours of the source are modelled deliberately:

- **Counter start.** The C++ constructor never initialises `m_loadedTextures`
  (SceneManager.cpp:36-45), so the first registration writes to an
  undetermined slot. The model starts the counter at 0, which is what the
  rest of the code assumes.
- **Capacity.** Neither append checks the capacity of 16
  (SceneManager.cpp:143-145, 708-710). Every appending method therefore
  requires `loadedTextures < 16`. The scene itself registers at most seven
  textures.
- **Wrap-mode argument.** `Wrapping` (SceneManager.h:57-63) has no fixed
  underlying type. Its values are 0 to 3, and producing any other value is
  undefined behaviour. In defined code, therefore, only `repeat` reaches the
  `switch` default (SceneManager.cpp:112). The model takes the argument as an
  `int`, a superset of the enum's range, and keeps the default branch for
  every value other than the three named cases.

## Model

| member | source | states |
|---|---|---|
| `Lookup.FirstIndex` | Projects/7-1_FinalProjectMilestones/Source/SceneManager.cpp:220-238 | the first-match scan: the result is -1 or the smallest index holding the tag, every earlier index (all of them on a miss) holds another tag, and the result is non-negative exactly when the tag occurs |
| `Lookup.FirstIndexUnique` | Projects/7-1_FinalProjectMilestones/Source/SceneManager.cpp:226-235 | the first-match description determines the result, so any loop that meets it returns `FirstIndex` |
| `Lookup.FirstIndexAppend` | Projects/7-1_FinalProjectMilestones/Source/SceneManager.cpp:143-145 | append-only growth never moves an earlier first match; a key first found in the appended part is found at its offset past the old end |
| `Lookup.FirstOccurrence` | Projects/7-1_FinalProjectMilestones/Source/SceneManager.cpp:162-172 | the scan for the tag at index `i` stops at `i` if and only if no earlier index carries that tag |
| `SceneTypes.WrapMode` | Projects/7-1_FinalProjectMilestones/Source/SceneManager.cpp:96-117 | S and T always get the same mode, one of the four GL modes; the mode is `GL_REPEAT` exactly when the value is not `mirrored_repeat`, `clamp_to_edge` or `clamp_to_border` (so for `repeat`, and for any other `int` the model admits beyond the enum's range) |
| `SceneTypes.WrapModeNamed` | Projects/7-1_FinalProjectMilestones/Source/SceneManager.h:57-63 | each of the four enum members selects the GL mode of the same name (the inverse mapping recovers it), so distinct members give distinct modes |
| `SceneTypes.UploadFormat` | Projects/7-1_FinalProjectMilestones/Source/SceneManager.cpp:123-133 | an upload format exists exactly for 3 or 4 channels; 4 channels upload as RGBA8/RGBA and 3 as RGB8/RGB |
| `SceneTypes.AsInt32` | Projects/7-1_FinalProjectMilestones/Source/SceneManager.cpp:204 | storing the `uint32_t` ID into an `int` gives a value in the 32-bit signed range that converts back to the same ID, negative exactly for IDs from 2^31 |
| `SceneTypes.ToUint32` | Projects/7-1_FinalProjectMilestones/Source/SceneManager.cpp:713-715 | returning the `int` slot as `unsigned int` reduces it modulo 2^32 and keeps non-negative slots unchanged |
| `SceneTypes.CopyReflectance` | Projects/7-1_FinalProjectMilestones/Source/SceneManager.cpp:260-264 | a lookup hit copies all five reflectance fields from the found material and keeps the output's own tag |
| `SceneTypes.RegisteredTags` | Projects/7-1_FinalProjectMilestones/Source/SceneManager.cpp:287-310 | a run of texture creations registers only tags of its assets, so a tag none of them carries (the depth-map tag) never appears |
| `SceneTypes.RegisteredTracks` | Projects/7-1_FinalProjectMilestones/Source/SceneManager.cpp:287-310 | one more creation in the run extends the table by exactly that creation's entry when the image was accepted, and by nothing otherwise |
| `SceneTypes.SceneMaterialTagsDistinct` | Projects/7-1_FinalProjectMilestones/Source/SceneManager.cpp:328-390 | the six material tags are pairwise distinct: a lookup of the `k`-th tag in the defined list stops at index `k` |
| `Scene.RegisterSlot` | Projects/7-1_FinalProjectMilestones/Source/SceneManager.cpp:143-145 | after one registration, an earlier tag keeps its slot, a new tag equal to the entry's is found at the old count, and any other tag is still missing |
| `Scene.DepthMapSlotAfterLoad` | Projects/7-1_FinalProjectMilestones/Source/SceneManager.cpp:705-715 | registering the depth map on a table without one puts its slot at the previous count |
| `Scene.NoDepthMapAfterCreation` | Projects/7-1_FinalProjectMilestones/Source/SceneManager.cpp:287-313 | the scene's six texture creations never add a depth-map entry |
| `Scene.DefinedMaterialFound` | Projects/7-1_FinalProjectMilestones/Source/SceneManager.cpp:328-390 | after the six materials are appended, a tag not used earlier in the list is found at its definition index past the old end |
| `Scene.SceneManager.constructor` | Projects/7-1_FinalProjectMilestones/Source/SceneManager.cpp:36-45 | a new manager has a fresh 16-entry table, no registered textures and no materials (the counter is set to 0 here; the source leaves it uninitialised) |
| `Scene.SceneManager.Register` | Projects/7-1_FinalProjectMilestones/Source/SceneManager.cpp:143-145 | writes `(tag, ID)` at index `m_loadedTextures`, increments the count by one and leaves every other array entry as it was |
| `Scene.SceneManager.CreateGLTexture` | Projects/7-1_FinalProjectMilestones/Source/SceneManager.cpp:69-154 | succeeds exactly when the decode succeeded with 3 or 4 channels. On success it appends `(tag, ID)` at the old count and reports the configured wrap mode and format. On either failure it returns false and leaves the count and the whole array unchanged |
| `Scene.SceneManager.LoadDepthMapTexture` | Projects/7-1_FinalProjectMilestones/Source/SceneManager.cpp:705-711 | appends `("depthMap", depthmap)` at the old count; the depth map's slot is then the old count unless an earlier depth-map entry shadows it |
| `Scene.SceneManager.BindGLTextures` | Projects/7-1_FinalProjectMilestones/Source/SceneManager.cpp:162-172 | makes exactly `m_loadedTextures` bindings in ascending order, unit `i` to entry `i`'s ID, without changing the table; unit `i` equals the slot a lookup reports for entry `i`'s tag iff `i` is that tag's first occurrence |
| `Scene.SceneManager.FindTextureSlot` | Projects/7-1_FinalProjectMilestones/Source/SceneManager.cpp:220-238 | returns the smallest registered index whose tag equals `tag`, or -1 when none does; the table is not modified |
| `Scene.SceneManager.FindTextureID` | Projects/7-1_FinalProjectMilestones/Source/SceneManager.cpp:194-212 | returns the ID stored at the first-match slot (as a 32-bit `int`) or -1 on a miss; when every stored ID is below 2^31 it returns -1 exactly when the slot lookup does |
| `Scene.SceneManager.GetDepthMapSlot` | Projects/7-1_FinalProjectMilestones/Source/SceneManager.cpp:713-715 | returns 0xFFFFFFFF exactly when no depth map is registered, and otherwise the first depth-map slot |
| `Scene.SceneManager.CreateSceneTexture` | Projects/7-1_FinalProjectMilestones/Source/SceneManager.cpp:287-310 | one creation of the scene's run: the table grows from the first `k` creations' entries to the first `k + 1` |
| `Scene.SceneManager.CreateSceneTextures` | Projects/7-1_FinalProjectMilestones/Source/SceneManager.cpp:287-310 | the six creations append one entry per accepted image, in order, and nothing for a failed one |
| `Scene.SceneManager.LoadSceneTextures` | Projects/7-1_FinalProjectMilestones/Source/SceneManager.cpp:282-320 | the table ends as the old entries, then the accepted scene textures, then the depth map. On a table without a depth map, the depth map's slot is the old count plus the number of accepted images. Every entry is then bound to the unit of its position |
| `Scene.SceneManager.DefineObjectMaterials` | Projects/7-1_FinalProjectMilestones/Source/SceneManager.cpp:328-390 | appends the six materials with their literal constants, in order, after the existing list; each of their tags not used before is then found at its own position |
| `Scene.SceneManager.ScanMaterials` | Projects/7-1_FinalProjectMilestones/Source/SceneManager.cpp:253-270 | the search loop reports whether any material has the tag; on a hit the output gets the reflectance of the first matching material, on a miss it is untouched |
| `Scene.SceneManager.FindMaterial` | Projects/7-1_FinalProjectMilestones/Source/SceneManager.cpp:246-273 | an empty list returns false with the output untouched. A matching tag copies the first match's five reflectance fields and returns true. A non-empty list with no match returns true with the output untouched |
| `Scene.SceneManager.FindMaterialChecked` | Projects/7-1_FinalProjectMilestones/Source/SceneManager.cpp:246-273 | the corrected lookup: returns true exactly when some material has the tag, with the same copying behaviour |
| `Scene.MaterialMissExample` | Projects/7-1_FinalProjectMilestones/Source/SceneManager.cpp:272 | after the scene's materials are defined, looking up an undefined tag returns true from `FindMaterial` and false from the corrected lookup; neither changes the output |

## Findings

| source | as written | input that shows it | evidently intended | confidence | as-written member | corrected member |
|---|---|---|---|---|---|---|
| Projects/7-1_FinalProjectMilestones/Source/SceneManager.cpp:272 | `FindMaterial` ends with `return(true)` whatever the loop found, so a miss on a non-empty list reports success | the six scene materials and the tag `"wood"`: the result is true and the output material is untouched | `return(bFound)`: report whether a material with the tag exists | not executed; high (the header comment promises a material associated with the tag, and the empty-list branch already returns false) | `Scene.SceneManager.FindMaterial`, `Scene.MaterialMissExample` | `Scene.SceneManager.FindMaterialChecked` |

## Left out

- `Scene.SceneManager.CreateGLTexture`: on the unsupported-channel path the source has already generated a GL texture name and set its wrap mode and filters, and it returns without freeing the decoded pixels. That orphaned GL object and the leaked buffer are not modelled: the result is just `false` with no upload.
- `Scene.SceneManager.FindTextureID`: an ID of 2^31 or more reads back negative; at 0xFFFFFFFF it equals the `-1` miss sentinel. The contract states this but does not treat it as a defect, because GL texture names are small in practice.
- `Scene.SceneManager.LoadSceneTextures`: the `SetDepthMapTexture` call between depth-map registration and binding is not modelled. It only passes `FindTextureSlot("depthMap")` to a shader sampler uniform, which is a foreign call.
- `SetShaderTexture` and `SetDepthMapTexture` are not modelled as operations. Both pass `FindTextureSlot(tag)` to a shader sampler uniform, and `SetShaderTexture` also sets the use-texture flag (SceneManager.cpp:466). `SetDepthMapTexture` (SceneManager.cpp:473-478) only passes the slot of `"depthMap"`. They are foreign calls through the shader wrapper, so only the slot they pass is modelled, as `FindTextureSlot`.
- `DestroyGLTextures` (SceneManager.cpp:180-186) is not modelled. It calls `glGenTextures(1, &m_textureIDs[i].ID)` for every registered entry, so each entry's ID is replaced with a freshly generated GL name, while tags and the count stay as they are. The intent was evidently `glDeleteTextures`, which frees the names. The new names come from the driver, and nothing in these sources calls the method, so it is left out.
- The destructor frees only two of the four mesh providers (SceneManager.cpp:52-59). This is memory management, not registry behaviour.
- The following are not part of this model: `SetTransformations` and the light-space matrix (float matrix and trigonometry composition), `CalculateTriangleNormal` (float and `sqrt`, dead code), `SetupSceneLights` (a fixed list of uniform writes), and `PrepareScene`, `RenderScene`, `RenderTable`, `RenderPuzzleBox` and `renderQuad` with its global VAO/VBO (fixed sequences of GL calls and float constants).
- `Scene.SceneManager.CreateGLTexture`: the console messages are dropped. These are the success message (SceneManager.cpp:90), the unsupported-channel message (131) and the load-failure message (150). They are output only.
- The `glTexImage2D` upload, mipmap generation, filtering parameters and the vertical flip of decoded images are not modelled. They are driver calls; only their registry effect and the chosen parameters are.
- The image decoder, window and context creation, shader compilation and the event loop are not modelled. They are I/O handled by foreign libraries.
- Floating-point values are modelled as exact reals, and only as constants carried by materials.
