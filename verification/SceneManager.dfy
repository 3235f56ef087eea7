/** The texture and material registry of `SceneManager`: a fixed table of
    sixteen (tag, texture name) entries with a fill counter, appended to by
    texture creation and by depth-map registration, searched by tag and
    bound to texture units by position; and a list of materials, filled once
    with the scene's six materials and searched by tag. */
module Scene {
  import opened Lookup
  import opened SceneTypes

  /** Registering one more entry keeps every earlier first match, and
      a tag seen for the first time is found at the old end of the table. */
  lemma RegisterSlot(entries: seq<TextureInfo>, e: TextureInfo, tag: string)
    ensures FirstIndex(TextureTags(entries + [e]), tag) ==
      if tag in TextureTags(entries) then FirstIndex(TextureTags(entries), tag)
      else if e.tag == tag then |entries|
      else -1
  {
    TagsAppend(entries, [e], EntryTag);
    assert TextureTags([e]) == [e.tag];
    FirstIndexAppend(TextureTags(entries), [e.tag], tag);
  }

  /** Registering the depth map on a table that holds no depth map yet puts
      its slot at the previous count. */
  lemma DepthMapSlotAfterLoad(entries: seq<TextureInfo>, id: uint32)
    requires DepthMapTag !in TextureTags(entries)
    ensures FirstIndex(TextureTags(entries + [TextureInfo(DepthMapTag, id)]), DepthMapTag) == |entries|
  {
    RegisterSlot(entries, TextureInfo(DepthMapTag, id), DepthMapTag);
  }

  /** The scene's textures never use the reserved depth-map tag, so a table
      without a depth map still has none after they are created. */
  lemma NoDepthMapAfterCreation(before: seq<TextureInfo>, images: seq<ImageLoad>, ids: seq<uint32>)
    requires |images| == |SceneTextures()| && |ids| == |SceneTextures()|
    requires DepthMapTag !in TextureTags(before)
    ensures DepthMapTag !in TextureTags(before + Registered(SceneTextures(), images, ids))
  {
    RegisteredTags(SceneTextures(), images, ids, DepthMapTag);
    TagsAppend(before, Registered(SceneTextures(), images, ids), EntryTag);
  }

  /** After the scene's materials are appended to a list that does not yet
      use the tag of the `k`-th one, a lookup of that tag stops at it. */
  lemma DefinedMaterialFound(prior: seq<ObjectMaterial>, k: int)
    requires 0 <= k < |SceneMaterials()|
    requires SceneMaterials()[k].tag !in MaterialTags(prior)
    ensures FirstIndex(MaterialTags(prior + SceneMaterials()), SceneMaterials()[k].tag) == |prior| + k
  {
    TagsAppend(prior, SceneMaterials(), MaterialTag);
    FirstIndexAppend(MaterialTags(prior), MaterialTags(SceneMaterials()), SceneMaterials()[k].tag);
    SceneMaterialTagsDistinct(k);
  }

  class SceneManager {
    /** `m_textureIDs[16]`: entries at and beyond the counter are unused. */
    var textureIDs: array<TextureInfo>
    /** `m_loadedTextures`. */
    var loadedTextures: nat
    /** `m_objectMaterials`. */
    var objectMaterials: seq<ObjectMaterial>

    ghost predicate Valid()
      reads this
    {
      textureIDs.Length == MaxTextures && loadedTextures <= MaxTextures
    }

    /** The registered textures, in registration order. */
    ghost function Textures(): seq<TextureInfo>
      reads this, textureIDs
      requires Valid()
    {
      textureIDs[..loadedTextures]
    }

    /** The slot a lookup of `tag` reports. */
    ghost function SlotOf(tag: string): int
      reads this, textureIDs
      requires Valid()
    {
      FirstIndex(TextureTags(Textures()), tag)
    }

    constructor ()
      ensures Valid() && fresh(textureIDs)
      ensures Textures() == [] && objectMaterials == []
    {
      textureIDs := new TextureInfo[MaxTextures](_ => TextureInfo("", 0));
      loadedTextures := 0;
      objectMaterials := [];
    }

    /** The registration step shared by texture creation and depth-map
        loading: write the entry at the counter, then advance the counter. */
    method Register(tag: string, id: uint32)
      requires Valid() && loadedTextures < MaxTextures
      modifies this`loadedTextures, textureIDs
      ensures Valid()
      ensures loadedTextures == old(loadedTextures) + 1
      ensures textureIDs[..] == old(textureIDs[..])[old(loadedTextures) := TextureInfo(tag, id)]
      ensures Textures() == old(Textures()) + [TextureInfo(tag, id)]
    {
      textureIDs[loadedTextures] := TextureInfo(tag, id);
      loadedTextures := loadedTextures + 1;
    }

    /** `CreateGLTexture`. The decoder's answer for the file is `image`;
        `textureID` is the name `glGenTextures` hands out. */
    method CreateGLTexture(tag: string, wrapping: int, image: ImageLoad, textureID: uint32)
      returns (ok: bool, upload: Option<TextureUpload>)
      requires Valid() && loadedTextures < MaxTextures
      modifies this`loadedTextures, textureIDs
      ensures Valid()
      ensures ok <==> image.Loaded? && (image.colorChannels == 3 || image.colorChannels == 4)
      ensures ok == Accepted(image)
      ensures Textures() == old(Textures()) + if ok then [TextureInfo(tag, textureID)] else []
      ensures ok ==> (upload.Some? && upload.value.id == textureID
                      && upload.value.wrap == WrapMode(wrapping)
                      && Some(upload.value.format) == UploadFormat(image.colorChannels))
      ensures !ok ==> upload == None
      ensures ok ==> (loadedTextures == old(loadedTextures) + 1
                      && textureIDs[..] == old(textureIDs[..])[old(loadedTextures) := TextureInfo(tag, textureID)]
                      && Textures() == old(Textures()) + [TextureInfo(tag, textureID)])
      ensures !ok ==> loadedTextures == old(loadedTextures) && textureIDs[..] == old(textureIDs[..])
    {
      if image.LoadFailed? {
        return false, None;
      }
      var wrap := WrapMode(wrapping);
      var format := UploadFormat(image.colorChannels);
      if format.None? {
        return false, None;
      }
      Register(tag, textureID);
      return true, Some(TextureUpload(textureID, wrap, format.value));
    }

    /** `LoadDepthMapTexture`: register an externally created depth texture
        under the reserved tag. */
    method LoadDepthMapTexture(depthmap: uint32)
      requires Valid() && loadedTextures < MaxTextures
      modifies this`loadedTextures, textureIDs
      ensures Valid()
      ensures loadedTextures == old(loadedTextures) + 1
      ensures textureIDs[..] == old(textureIDs[..])[old(loadedTextures) := TextureInfo(DepthMapTag, depthmap)]
      ensures Textures() == old(Textures()) + [TextureInfo(DepthMapTag, depthmap)]
      ensures SlotOf(DepthMapTag) ==
        if DepthMapTag in TextureTags(old(Textures())) then old(SlotOf(DepthMapTag)) else old(loadedTextures)
    {
      Register(DepthMapTag, depthmap);
      RegisterSlot(old(Textures()), TextureInfo(DepthMapTag, depthmap), DepthMapTag);
    }

    /** `BindGLTextures`: texture unit `i` receives entry `i`, for every
        registered entry in ascending order. */
    method BindGLTextures() returns (bindings: seq<TextureBinding>)
      requires Valid()
      ensures |bindings| == loadedTextures
      ensures forall i :: 0 <= i < loadedTextures ==> bindings[i] == TextureBinding(i, textureIDs[i].id)
      ensures forall i :: 0 <= i < loadedTextures ==>
        (bindings[i].unit == SlotOf(textureIDs[i].tag) <==>
         forall j :: 0 <= j < i ==> textureIDs[j].tag != textureIDs[i].tag)
    {
      bindings := [];
      for i := 0 to loadedTextures
        invariant |bindings| == i
        invariant forall k :: 0 <= k < i ==> bindings[k] == TextureBinding(k, textureIDs[k].id)
      {
        bindings := bindings + [TextureBinding(i, textureIDs[i].id)];
      }
      ghost var tags := TextureTags(Textures());
      assert forall j :: 0 <= j < loadedTextures ==> tags[j] == textureIDs[j].tag;
      forall i | 0 <= i < loadedTextures
        ensures bindings[i].unit == SlotOf(textureIDs[i].tag) <==>
                forall j :: 0 <= j < i ==> textureIDs[j].tag != textureIDs[i].tag
      {
        FirstOccurrence(tags, i);
      }
    }

    /** `FindTextureSlot`: the first slot whose tag equals `tag`, or -1. */
    method FindTextureSlot(tag: string) returns (textureSlot: int)
      requires Valid()
      ensures -1 <= textureSlot < loadedTextures
      ensures textureSlot >= 0 ==> textureIDs[textureSlot].tag == tag
      ensures forall j :: 0 <= j < loadedTextures && (textureSlot < 0 || j < textureSlot) ==>
        textureIDs[j].tag != tag
      ensures textureSlot == SlotOf(tag)
    {
      textureSlot := -1;
      var index := 0;
      var bFound := false;
      while index < loadedTextures && !bFound
        invariant 0 <= index <= loadedTextures
        invariant bFound ==> index < loadedTextures && textureSlot == index && textureIDs[index].tag == tag
        invariant !bFound ==> textureSlot == -1
        invariant forall j :: 0 <= j < index ==> textureIDs[j].tag != tag
        decreases loadedTextures - index, if bFound then 0 else 1
      {
        if textureIDs[index].tag == tag {
          textureSlot := index;
          bFound := true;
        } else {
          index := index + 1;
        }
      }
      FirstIndexUnique(TextureTags(Textures()), tag, textureSlot);
    }

    /** `FindTextureID`: the texture name at the first slot whose tag equals
        `tag`, converted to `int`, or -1. */
    method FindTextureID(tag: string) returns (textureID: int)
      requires Valid()
      ensures SlotOf(tag) >= 0 ==> textureID == AsInt32(textureIDs[SlotOf(tag)].id)
      ensures SlotOf(tag) < 0 ==> textureID == -1
      ensures (forall j :: 0 <= j < loadedTextures ==> textureIDs[j].id < 0x8000_0000) ==>
        (textureID == -1 <==> SlotOf(tag) == -1)
    {
      textureID := -1;
      var index := 0;
      var bFound := false;
      while index < loadedTextures && !bFound
        invariant 0 <= index <= loadedTextures
        invariant bFound ==> index < loadedTextures && textureIDs[index].tag == tag
                             && textureID == AsInt32(textureIDs[index].id)
        invariant !bFound ==> textureID == -1
        invariant forall j :: 0 <= j < index ==> textureIDs[j].tag != tag
        decreases loadedTextures - index, if bFound then 0 else 1
      {
        if textureIDs[index].tag == tag {
          textureID := AsInt32(textureIDs[index].id);
          bFound := true;
        } else {
          index := index + 1;
        }
      }
      FirstIndexUnique(TextureTags(Textures()), tag, if bFound then index else -1);
    }

    /** `GetDepthMapSlot`: the depth map's slot as an unsigned value, so
        that a missing depth map reads as 0xFFFFFFFF. */
    method GetDepthMapSlot() returns (slot: uint32)
      requires Valid()
      ensures slot == 0xFFFF_FFFF <==> DepthMapTag !in TextureTags(Textures())
      ensures slot != 0xFFFF_FFFF ==>
        slot as int == SlotOf(DepthMapTag) && textureIDs[slot].tag == DepthMapTag
    {
      var s := FindTextureSlot(DepthMapTag);
      slot := ToUint32(s);
    }

    /** One texture creation of `LoadSceneTextures`: create the `k`-th
        texture of `assets`, ignoring the result. `before` is the table as it
        was before the first of the six creations. */
    method CreateSceneTexture(assets: seq<TextureAsset>, images: seq<ImageLoad>, ids: seq<uint32>,
                              k: nat, ghost before: seq<TextureInfo>)
      requires Valid() && |assets| == |SceneTextures()| && k < |assets|
      requires |images| == |assets| && |ids| == |assets|
      requires Textures() == before + Registered(assets[..k], images[..k], ids[..k])
      requires |before| + |assets| <= MaxTextures
      modifies this`loadedTextures, textureIDs
      ensures Valid()
      ensures Textures() == before + Registered(assets[..k + 1], images[..k + 1], ids[..k + 1])
    {
      ghost var prev := Textures();
      var bReturn, upload := CreateGLTexture(assets[k].tag, assets[k].wrapping, images[k], ids[k]);
      RegisteredTracks(before, prev, Textures(), assets, images, ids, k);
    }

    /** The six texture creations of `LoadSceneTextures`, for the asset
        list `assets` (the scene passes `SceneTextures()`). `images[k]` is
        the decoder's answer for the `k`-th file and `ids[k]` the texture
        name handed out for it; failed creations leave no entry. */
    method CreateSceneTextures(assets: seq<TextureAsset>, images: seq<ImageLoad>, ids: seq<uint32>)
      requires Valid() && |assets| == |SceneTextures()| && loadedTextures + |assets| <= MaxTextures
      requires |images| == |assets| && |ids| == |assets|
      modifies this`loadedTextures, textureIDs
      ensures Valid()
      ensures Textures() == old(Textures()) + Registered(assets, images, ids)
    {
      ghost var before := Textures();
      assert assets[..0] == [] && images[..0] == [] && ids[..0] == [];
      CreateSceneTexture(assets, images, ids, 0, before);
      CreateSceneTexture(assets, images, ids, 1, before);
      CreateSceneTexture(assets, images, ids, 2, before);
      CreateSceneTexture(assets, images, ids, 3, before);
      CreateSceneTexture(assets, images, ids, 4, before);
      CreateSceneTexture(assets, images, ids, 5, before);
      RegisteredWhole(assets, images, ids);
    }

    /** `LoadSceneTextures`: create the scene's six textures, register the
        depth map after them and bind everything. */
    method LoadSceneTextures(depthmap: uint32, images: seq<ImageLoad>, ids: seq<uint32>)
      returns (bindings: seq<TextureBinding>)
      requires Valid() && loadedTextures + |SceneTextures()| < MaxTextures
      requires |images| == |SceneTextures()| && |ids| == |SceneTextures()|
      modifies this`loadedTextures, textureIDs
      ensures Valid()
      ensures Textures() == old(Textures()) + Registered(SceneTextures(), images, ids)
                            + [TextureInfo(DepthMapTag, depthmap)]
      ensures DepthMapTag !in TextureTags(old(Textures())) ==>
        SlotOf(DepthMapTag) == old(loadedTextures) + |Registered(SceneTextures(), images, ids)|
      ensures |bindings| == loadedTextures
      ensures forall i :: 0 <= i < loadedTextures ==> bindings[i] == TextureBinding(i, textureIDs[i].id)
    {
      CreateSceneTextures(SceneTextures(), images, ids);
      if DepthMapTag !in TextureTags(old(Textures())) {
        NoDepthMapAfterCreation(old(Textures()), images, ids);
      }
      LoadDepthMapTexture(depthmap);
      bindings := BindGLTextures();
    }

    /** `DefineObjectMaterials`: append the scene's six materials. */
    method DefineObjectMaterials()
      modifies this`objectMaterials
      ensures objectMaterials == old(objectMaterials) + SceneMaterials()
      ensures forall k :: 0 <= k < |SceneMaterials()| && SceneMaterials()[k].tag !in MaterialTags(old(objectMaterials)) ==>
        FirstIndex(MaterialTags(objectMaterials), SceneMaterials()[k].tag) == |old(objectMaterials)| + k
    {
      objectMaterials := objectMaterials + SceneMaterials();
      forall k | 0 <= k < |SceneMaterials()| && SceneMaterials()[k].tag !in MaterialTags(old(objectMaterials))
        ensures FirstIndex(MaterialTags(objectMaterials), SceneMaterials()[k].tag) == |old(objectMaterials)| + k
      {
        DefinedMaterialFound(old(objectMaterials), k);
      }
    }

    /** The search loop of `FindMaterial`: on a hit, the reflectance fields
        of the first matching material are copied into `material`. */
    method ScanMaterials(tag: string, material: ObjectMaterial) returns (bFound: bool, result: ObjectMaterial)
      ensures bFound <==> tag in MaterialTags(objectMaterials)
      ensures bFound ==> result == CopyReflectance(material, objectMaterials[FirstIndex(MaterialTags(objectMaterials), tag)])
      ensures !bFound ==> result == material
    {
      result := material;
      var index := 0;
      bFound := false;
      while index < |objectMaterials| && !bFound
        invariant 0 <= index <= |objectMaterials|
        invariant bFound ==> index < |objectMaterials| && objectMaterials[index].tag == tag
                             && result == CopyReflectance(material, objectMaterials[index])
        invariant !bFound ==> result == material
        invariant forall j :: 0 <= j < index ==> objectMaterials[j].tag != tag
        decreases |objectMaterials| - index, if bFound then 0 else 1
      {
        if objectMaterials[index].tag == tag {
          bFound := true;
          result := CopyReflectance(result, objectMaterials[index]);
        } else {
          index := index + 1;
        }
      }
      FirstIndexUnique(MaterialTags(objectMaterials), tag, if bFound then index else -1);
    }

    /** `FindMaterial` as written: an empty list reports false, any other
        list reports true, whether or not a material matched. */
    method FindMaterial(tag: string, material: ObjectMaterial) returns (found: bool, result: ObjectMaterial)
      ensures found <==> |objectMaterials| > 0
      ensures tag in MaterialTags(objectMaterials) ==>
        result == CopyReflectance(material, objectMaterials[FirstIndex(MaterialTags(objectMaterials), tag)])
      ensures tag !in MaterialTags(objectMaterials) ==> result == material
    {
      if |objectMaterials| == 0 {
        return false, material;
      }
      var bFound;
      bFound, result := ScanMaterials(tag, material);
      found := true;
    }

    /** `FindMaterial` as evidently intended: report whether a material
        matched. */
    method FindMaterialChecked(tag: string, material: ObjectMaterial) returns (found: bool, result: ObjectMaterial)
      ensures found <==> tag in MaterialTags(objectMaterials)
      ensures found ==>
        result == CopyReflectance(material, objectMaterials[FirstIndex(MaterialTags(objectMaterials), tag)])
      ensures !found ==> result == material
    {
      found, result := ScanMaterials(tag, material);
    }
  }

  /** A lookup of a tag the scene never defines, after the scene's materials
      have been defined: the as-written lookup reports success, the checked
      one reports the miss, and neither touches the output material. */
  method MaterialMissExample() returns (found: bool, checked: bool, untouched: bool)
    ensures found && !checked && untouched
  {
    var scene := new SceneManager();
    scene.DefineObjectMaterials();
    assert scene.objectMaterials == SceneMaterials();
    SceneMaterialTags();
    assert "wood" !in MaterialTags(scene.objectMaterials);
    var blank := ObjectMaterial(0.0, Grey(0.0), Grey(0.0), Grey(0.0), 0.0, "");
    var r1, r2;
    found, r1 := scene.FindMaterial("wood", blank);
    checked, r2 := scene.FindMaterialChecked("wood", blank);
    untouched := r1 == blank && r2 == blank;
  }
}
