/** Values the scene manager stores and the pure mappings it applies:
    texture table entries, material records, the wrap-mode switch, the
    pixel-format choice and the 32-bit conversions of the C++ code. */
module SceneTypes {
  import opened Lookup

  datatype Option<T> = None | Some(value: T)

  /** An OpenGL texture name (`GLuint`, `uint32_t`). */
  newtype uint32 = x: int | 0 <= x < 0x1_0000_0000

  /** Capacity of the texture table (`TEXTURE_INFO m_textureIDs[16]`). */
  const MaxTextures: nat := 16

  /** The reserved tag under which the shadow depth map is registered. */
  const DepthMapTag: string := "depthMap"

  /** One entry of the texture table: `TEXTURE_INFO { tag, ID }`. */
  datatype TextureInfo = TextureInfo(tag: string, id: uint32)

  /** The keys a front-to-back lookup compares, in table order: `tagOf`
      picks the tag field of each record. */
  function Tags<T>(records: seq<T>, tagOf: T -> string): (r: seq<string>)
    ensures |r| == |records|
    ensures forall i :: 0 <= i < |records| ==> r[i] == tagOf(records[i])
  {
    seq(|records|, i requires 0 <= i < |records| => tagOf(records[i]))
  }

  /** Projecting tags commutes with appending records. */
  lemma TagsAppend<T>(a: seq<T>, b: seq<T>, tagOf: T -> string)
    ensures Tags(a + b, tagOf) == Tags(a, tagOf) + Tags(b, tagOf)
  {
    assert forall i :: 0 <= i < |a| ==> (a + b)[i] == a[i];
    assert forall i :: |a| <= i < |a + b| ==> (a + b)[i] == b[i - |a|];
  }

  function EntryTag(e: TextureInfo): string { e.tag }

  /** The tags of texture table entries. */
  function TextureTags(entries: seq<TextureInfo>): seq<string>
  {
    Tags(entries, EntryTag)
  }

  /** The result of the image decoder (`stbi_load`) for one file: a failure
      (null pixel pointer) or the number of colour channels it reports. */
  datatype ImageLoad = LoadFailed | Loaded(colorChannels: int)

  // ---------------------------------------------------------------------
  // Two's-complement conversions between `int` and 32-bit unsigned values

  /** `(unsigned int) x`: reduction modulo 2^32. */
  function ToUint32(x: int): (u: uint32)
    ensures (u as int - x) % 0x1_0000_0000 == 0
    ensures 0 <= x < 0x1_0000_0000 ==> u as int == x
  {
    (x % 0x1_0000_0000) as uint32
  }

  /** `(int) u` for a 32-bit unsigned `u`: values from 2^31 up read as
      negative. */
  function AsInt32(u: uint32): (x: int)
    ensures -0x8000_0000 <= x < 0x8000_0000
    ensures ToUint32(x) == u
    ensures x < 0 <==> u >= 0x8000_0000
  {
    if u < 0x8000_0000 then u as int else u as int - 0x1_0000_0000
  }

  // ---------------------------------------------------------------------
  // Texture wrapping: the `Wrapping` enum and the `switch` that maps it

  /** Values of the C++ enum `Wrapping` (0 to 3). The wrap mode is taken as
      an `int`, a superset of that range; the `switch` default handles
      `Repeat` and every other value. */
  const Repeat: int := 0
  const MirroredRepeat: int := 1
  const ClampToEdge: int := 2
  const ClampToBorder: int := 3

  /** OpenGL wrap-mode constants. */
  const GL_REPEAT: int := 0x2901
  const GL_MIRRORED_REPEAT: int := 0x8370
  const GL_CLAMP_TO_EDGE: int := 0x812F
  const GL_CLAMP_TO_BORDER: int := 0x812D

  /** The values written to `GL_TEXTURE_WRAP_S` and `GL_TEXTURE_WRAP_T`. */
  datatype WrapParams = WrapParams(s: int, t: int)

  /** The wrap-mode `switch` of texture creation. */
  function WrapMode(wrapping: int): (r: WrapParams)
    ensures r.s == r.t
    ensures r.s in {GL_REPEAT, GL_MIRRORED_REPEAT, GL_CLAMP_TO_EDGE, GL_CLAMP_TO_BORDER}
    ensures r.s == GL_REPEAT <==> wrapping !in {MirroredRepeat, ClampToEdge, ClampToBorder}
  {
    if wrapping == MirroredRepeat then WrapParams(GL_MIRRORED_REPEAT, GL_MIRRORED_REPEAT)
    else if wrapping == ClampToEdge then WrapParams(GL_CLAMP_TO_EDGE, GL_CLAMP_TO_EDGE)
    else if wrapping == ClampToBorder then WrapParams(GL_CLAMP_TO_BORDER, GL_CLAMP_TO_BORDER)
    else WrapParams(GL_REPEAT, GL_REPEAT)
  }

  /** The enum member whose name matches a GL wrap mode (reference
      inverse of the switch). */
  function WrappingOf(glMode: int): int
  {
    if glMode == GL_MIRRORED_REPEAT then MirroredRepeat
    else if glMode == GL_CLAMP_TO_EDGE then ClampToEdge
    else if glMode == GL_CLAMP_TO_BORDER then ClampToBorder
    else Repeat
  }

  /** Each named enum member selects the GL mode of the same name, so the
      four members give four distinct modes. */
  lemma WrapModeNamed(wrapping: int)
    requires Repeat <= wrapping <= ClampToBorder
    ensures WrappingOf(WrapMode(wrapping).s) == wrapping
  {
  }

  // ---------------------------------------------------------------------
  // Pixel formats for the upload

  const GL_RGB: int := 0x1907
  const GL_RGBA: int := 0x1908
  const GL_RGB8: int := 0x8051
  const GL_RGBA8: int := 0x8058

  /** The internal and external formats passed to `glTexImage2D`. */
  datatype PixelFormat = PixelFormat(internalFormat: int, format: int)

  /** The channel-count test of texture creation: three channels upload as
      RGB, four (with transparency) as RGBA, and any other count is not
      supported. */
  function UploadFormat(colorChannels: int): (r: Option<PixelFormat>)
    ensures r.Some? <==> colorChannels == 3 || colorChannels == 4
    ensures r.Some? ==> r.value.format == (if colorChannels == 4 then GL_RGBA else GL_RGB)
    ensures r.Some? ==> r.value.internalFormat == (if colorChannels == 4 then GL_RGBA8 else GL_RGB8)
  {
    if colorChannels == 3 then Some(PixelFormat(GL_RGB8, GL_RGB))
    else if colorChannels == 4 then Some(PixelFormat(GL_RGBA8, GL_RGBA))
    else None
  }

  /** What a successful texture creation leaves in the GL context: the
      texture name, its wrap mode and its pixel format. */
  datatype TextureUpload = TextureUpload(id: uint32, wrap: WrapParams, format: PixelFormat)

  /** One texture of the scene: the image file, its tag and its wrap mode. */
  datatype TextureAsset = TextureAsset(path: string, tag: string, wrapping: int)

  /** The scene's textures, in loading order. */
  function SceneTextures(): seq<TextureAsset>
  {
    [ TextureAsset("Textures/album_back.jpg", "album_back", Repeat),
      TextureAsset("Textures/album_atlas.jpg", "album", Repeat),
      TextureAsset("Textures/album_pages.jpg", "album_pages", MirroredRepeat),
      TextureAsset("Textures/marble.png", "marble", Repeat),
      TextureAsset("Textures/cork.png", "cork", Repeat),
      TextureAsset("Textures/puzzle_atlas_02.jpg", "puzzle", Repeat) ]
  }

  /** Whether texture creation accepts a decoder result. */
  predicate Accepted(image: ImageLoad)
  {
    image.Loaded? && UploadFormat(image.colorChannels).Some?
  }

  /** The entries a run of texture creations appends: one per accepted
      image, in order, under the asset's tag and the name handed out for it. */
  function Registered(assets: seq<TextureAsset>, images: seq<ImageLoad>, ids: seq<uint32>): (r: seq<TextureInfo>)
    requires |images| == |assets| && |ids| == |assets|
    ensures |r| <= |assets|
  {
    if |assets| == 0 then []
    else
      var n := |assets| - 1;
      Registered(assets[..n], images[..n], ids[..n])
        + (if Accepted(images[n]) then [TextureInfo(assets[n].tag, ids[n])] else [])
  }

  /** Extending the run by the next asset extends the appended entries by
      at most that asset's entry. */
  lemma RegisteredStep(assets: seq<TextureAsset>, images: seq<ImageLoad>, ids: seq<uint32>, k: int)
    requires |images| == |assets| && |ids| == |assets|
    requires 0 <= k < |assets|
    ensures Registered(assets[..k + 1], images[..k + 1], ids[..k + 1]) ==
      Registered(assets[..k], images[..k], ids[..k])
        + (if Accepted(images[k]) then [TextureInfo(assets[k].tag, ids[k])] else [])
  {
    assert assets[..k + 1][..k] == assets[..k];
    assert images[..k + 1][..k] == images[..k];
    assert ids[..k + 1][..k] == ids[..k];
  }

  /** One more texture creation of a run, seen from the table: if the
      table held `before` plus the entries of the first `k` creations, then
      after creation `k` it holds `before` plus those of the first `k + 1`. */
  lemma RegisteredTracks(before: seq<TextureInfo>, prev: seq<TextureInfo>, now: seq<TextureInfo>,
                         assets: seq<TextureAsset>, images: seq<ImageLoad>, ids: seq<uint32>, k: int)
    requires |images| == |assets| && |ids| == |assets|
    requires 0 <= k < |assets|
    requires prev == before + Registered(assets[..k], images[..k], ids[..k])
    requires now == prev + (if Accepted(images[k]) then [TextureInfo(assets[k].tag, ids[k])] else [])
    ensures now == before + Registered(assets[..k + 1], images[..k + 1], ids[..k + 1])
  {
    RegisteredStep(assets, images, ids, k);
  }

  lemma RegisteredWhole(assets: seq<TextureAsset>, images: seq<ImageLoad>, ids: seq<uint32>)
    requires |images| == |assets| && |ids| == |assets|
    ensures Registered(assets[..|assets|], images[..|assets|], ids[..|assets|]) == Registered(assets, images, ids)
  {
    assert assets[..|assets|] == assets && images[..|assets|] == images && ids[..|assets|] == ids;
  }

  /** A tag that no asset carries is never registered by the run. */
  lemma {:induction false} RegisteredTags(assets: seq<TextureAsset>, images: seq<ImageLoad>, ids: seq<uint32>, tag: string)
    requires |images| == |assets| && |ids| == |assets|
    requires forall k :: 0 <= k < |assets| ==> assets[k].tag != tag
    ensures tag !in TextureTags(Registered(assets, images, ids))
  {
    if |assets| > 0 {
      var n := |assets| - 1;
      RegisteredTags(assets[..n], images[..n], ids[..n], tag);
      var e := if Accepted(images[n]) then [TextureInfo(assets[n].tag, ids[n])] else [];
      TagsAppend(Registered(assets[..n], images[..n], ids[..n]), e, EntryTag);
    }
  }

  /** A `glActiveTexture(GL_TEXTURE0 + unit)` / `glBindTexture` pair. */
  datatype TextureBinding = TextureBinding(unit: nat, id: uint32)

  // ---------------------------------------------------------------------
  // Materials

  /** `glm::vec3`; single-precision floats are modelled as reals. */
  datatype Vec3 = Vec3(x: real, y: real, z: real)

  function Grey(v: real): Vec3 { Vec3(v, v, v) }

  /** `OBJECT_MATERIAL`. */
  datatype ObjectMaterial = ObjectMaterial(
    ambientStrength: real,
    ambientColor: Vec3,
    diffuseColor: Vec3,
    specularColor: Vec3,
    shininess: real,
    tag: string)

  function MaterialTag(m: ObjectMaterial): string { m.tag }

  /** The tags of the material list. */
  function MaterialTags(materials: seq<ObjectMaterial>): seq<string>
  {
    Tags(materials, MaterialTag)
  }

  /** The field-by-field copy of a material lookup hit: the five
      reflectance fields come from `src`, the tag stays that of `dst`. */
  function CopyReflectance(dst: ObjectMaterial, src: ObjectMaterial): (r: ObjectMaterial)
    ensures r.tag == dst.tag
    ensures r.(tag := src.tag) == src
  {
    dst.(ambientStrength := src.ambientStrength,
         ambientColor := src.ambientColor,
         diffuseColor := src.diffuseColor,
         specularColor := src.specularColor,
         shininess := src.shininess)
  }

  /** The six materials of the scene, in definition order. */
  function SceneMaterials(): seq<ObjectMaterial>
  {
    [ ObjectMaterial(0.3, Grey(0.4), Grey(0.3), Grey(0.6), 85.0, "glass"),
      ObjectMaterial(0.3, Grey(0.2), Grey(0.5), Grey(0.3), 0.5, "cork"),
      ObjectMaterial(0.6, Grey(0.1), Grey(0.5), Grey(0.3), 0.5, "puzzle"),
      ObjectMaterial(0.6, Grey(0.1), Grey(0.5), Grey(0.3), 0.5, "cloth"),
      ObjectMaterial(0.6, Grey(0.1), Grey(0.55), Grey(0.7), 0.25, "plastic"),
      ObjectMaterial(0.6, Grey(0.1), Vec3(0.7, 0.4, 0.4), Grey(0.296648), 0.2, "marble") ]
  }

  lemma SceneMaterialTags()
    ensures MaterialTags(SceneMaterials()) == ["glass", "cork", "puzzle", "cloth", "plastic", "marble"]
  {
  }

  /** The scene's material tags are pairwise distinct, so each of them is
      found at its own definition index. */
  lemma SceneMaterialTagsDistinct(k: int)
    requires 0 <= k < |SceneMaterials()|
    ensures FirstIndex(MaterialTags(SceneMaterials()), SceneMaterials()[k].tag) == k
  {
    SceneMaterialTags();
    var tags := MaterialTags(SceneMaterials());
    FirstIndexUnique(tags, tags[k], k);
  }
}
