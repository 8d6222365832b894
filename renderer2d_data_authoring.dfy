/** The editor-side part of URP's `Renderer2DData`: default materials, the light
    blend styles and the Sprite Editor's suggested texture names. */
module Renderer2DAuthoring {
  import opened RenderCommon

  /** `DefaultMaterialType`, the kinds of default material a renderer is asked for. */
  datatype DefaultMaterialType = Default | Particle | Terrain | Sprite | UnityUI | SpriteMask | Decal

  /** `Renderer2DDefaultMaterialType`. */
  datatype Renderer2DDefaultMaterialType = Lit | Unlit | Custom

  /** A material asset, by identity. */
  datatype MaterialRef = MaterialRef(id: nat)

  /** The materials of the registered `Renderer2DResources` settings. */
  datatype Renderer2DResources = Renderer2DResources(
    defaultLitMaterial: Option<MaterialRef>,
    defaultUnlitMaterial: Option<MaterialRef>,
    defaultCustomMaterial: Option<MaterialRef>,
    defaultMaskMaterial: Option<MaterialRef>)

  /** The 2D renderer's choice for sprites and particles. */
  function SpriteMaterial(resources: Renderer2DResources, defaultMaterialType: Renderer2DDefaultMaterialType): Option<MaterialRef> {
    match defaultMaterialType
    case Lit => resources.defaultLitMaterial
    case Unlit => resources.defaultUnlitMaterial
    case Custom => resources.defaultCustomMaterial
  }

  /** `GetDefaultMaterial`; `resources` is `None` when `TryGetRenderPipelineSettings`
      finds no `Renderer2DResources`. */
  function GetDefaultMaterial(resources: Option<Renderer2DResources>, defaultMaterialType: Renderer2DDefaultMaterialType,
                              materialType: DefaultMaterialType): (m: Option<MaterialRef>)
    ensures resources.None? ==> m.None?
    ensures resources.Some? && (materialType == Sprite || materialType == Particle) ==>
              m == SpriteMaterial(resources.value, defaultMaterialType)
    ensures resources.Some? && materialType == SpriteMask ==> m == resources.value.defaultMaskMaterial
    ensures materialType !in {Sprite, Particle, SpriteMask} ==> m.None?
  {
    if resources.None? then None
    else
      match materialType
      case Sprite | Particle => SpriteMaterial(resources.value, defaultMaterialType)
      case SpriteMask => resources.value.defaultMaskMaterial
      case _ => None
  }

  /** Sprites and particles always share a material, and only the mask material
      ignores the renderer's default material type. */
  lemma DefaultMaterialChoice(resources: Option<Renderer2DResources>, t1: Renderer2DDefaultMaterialType,
                              t2: Renderer2DDefaultMaterialType, materialType: DefaultMaterialType)
    ensures GetDefaultMaterial(resources, t1, Sprite) == GetDefaultMaterial(resources, t1, Particle)
    ensures GetDefaultMaterial(resources, t1, SpriteMask) == GetDefaultMaterial(resources, t2, SpriteMask)
    ensures GetDefaultMaterial(resources, t1, materialType).Some? ==>
              resources.Some? && materialType in {Sprite, Particle, SpriteMask}
  {
  }

  /** `Light2DBlendStyle.BlendMode` values the code names; 99 is the retired custom
      mode. */
  const Additive: int := 0
  const Multiply: int := 1
  const RetiredCustom: int := 99

  /** `Light2DBlendStyle.TextureChannel`: `None` is the default, `R` the red channel. */
  const ChannelNone: int := 0
  const ChannelR: int := 1

  /** The fields of a `Light2DBlendStyle` the code writes; a null name is "". */
  datatype Light2DBlendStyle = Light2DBlendStyle(name: string, blendMode: int, maskTextureChannel: int)

  /** `default(Light2DBlendStyle)`. */
  const EmptyBlendStyle: Light2DBlendStyle := Light2DBlendStyle("", 0, ChannelNone)

  /** One entry of the upgrade loop. */
  function MigrateBlendStyle(style: Light2DBlendStyle): Light2DBlendStyle {
    if style.blendMode == RetiredCustom then style.(blendMode := Multiply) else style
  }

  /** The non-forced rebuild of an existing array, entry by entry. */
  function MigrateBlendStyles(styles: seq<Light2DBlendStyle>): (r: seq<Light2DBlendStyle>)
    ensures |r| == |styles|
    ensures forall i :: 0 <= i < |styles| ==> r[i] == MigrateBlendStyle(styles[i])
  {
    seq(|styles|, i requires 0 <= i < |styles| => MigrateBlendStyle(styles[i]))
  }

  /** The upgrade keeps names and mask channels, turns every retired custom mode
      into Multiply, leaves every other entry as it was, and has nothing left to do
      on its own result. */
  lemma MigrationProperties(styles: seq<Light2DBlendStyle>)
    ensures var r := MigrateBlendStyles(styles);
      && (forall i :: 0 <= i < |styles| ==> r[i].name == styles[i].name && r[i].maskTextureChannel == styles[i].maskTextureChannel)
      && (forall i :: 0 <= i < |styles| ==> r[i].blendMode != RetiredCustom)
      && (forall i :: 0 <= i < |styles| && styles[i].blendMode != RetiredCustom ==> r[i] == styles[i])
      && (forall i :: 0 <= i < |styles| && styles[i].blendMode == RetiredCustom ==> r[i].blendMode == Multiply)
      && MigrateBlendStyles(r) == r
  {
    var r := MigrateBlendStyles(styles);
    assert forall i :: 0 <= i < |r| ==> MigrateBlendStyle(r[i]) == r[i];
  }

  /** The four styles of a forced or first rebuild. */
  const DefaultBlendStyles: seq<Light2DBlendStyle> := [
    Light2DBlendStyle("Multiply", Multiply, ChannelNone),
    Light2DBlendStyle("Additive", Additive, ChannelNone),
    Light2DBlendStyle("Multiply with Mask", Multiply, ChannelR),
    Light2DBlendStyle("Additive with Mask", Additive, ChannelR)]

  /** `sub` occurs in `s` starting at position `i`. */
  predicate OccursAt(s: string, sub: string, i: int) {
    0 <= i <= |s| - |sub| && s[i..i + |sub|] == sub
  }

  /** `string.Contains`: `sub` occurs in `s` at some position. */
  predicate Contains(s: string, sub: string) {
    exists i | 0 <= i <= |s| - |sub| :: OccursAt(s, sub, i)
  }

  const MaskTex: string := "_MaskTex"
  const NormalMap: string := "_NormalMap"

  /** The value `InitializeSpriteEditorPrefs` leaves under
      "SecondarySpriteTexturePropertyNames", from the value read there (a missing
      entry reads as ""). */
  function SuggestedNames(prefs: string): string {
    if prefs == [] then MaskTex + "," + NormalMap
    else
      var withMask := if Contains(prefs, MaskTex) then prefs else prefs + ("," + MaskTex);
      if Contains(withMask, NormalMap) then withMask else withMask + ("," + NormalMap)
  }

  lemma ContainsInExtension(s: string, t: string, sub: string)
    requires Contains(s, sub)
    ensures Contains(s + t, sub)
  {
    var i :| 0 <= i <= |s| - |sub| && OccursAt(s, sub, i);
    assert (s + t)[i..i + |sub|] == s[i..i + |sub|];
    assert OccursAt(s + t, sub, i);
  }

  lemma ContainsAppended(s: string, sub: string)
    ensures Contains(s + ("," + sub), sub)
  {
    var i := |s| + 1;
    assert (s + ("," + sub))[i..i + |sub|] == sub;
    assert OccursAt(s + ("," + sub), sub, i);
  }

  /** An empty entry becomes exactly "_MaskTex,_NormalMap". */
  lemma SuggestedNamesOfEmpty()
    ensures SuggestedNames("") == "_MaskTex,_NormalMap"
  {
  }

  /** A non-empty entry is kept as a prefix; the result names both properties, and
      an entry that already names both is left exactly as it was. */
  lemma {:induction false} SuggestedNamesExtends(prefs: string)
    ensures var r := SuggestedNames(prefs);
      && Contains(r, MaskTex) && Contains(r, NormalMap)
      && (prefs != [] ==> prefs <= r)
      && (prefs != [] && Contains(prefs, MaskTex) && Contains(prefs, NormalMap) ==> r == prefs)
  {
    if prefs == [] {
      assert (MaskTex + "," + NormalMap)[0..|MaskTex|] == MaskTex;
      assert OccursAt(MaskTex + "," + NormalMap, MaskTex, 0);
      assert MaskTex + "," + NormalMap == MaskTex + ("," + NormalMap);
      ContainsAppended(MaskTex, NormalMap);
    } else {
      var withMask := if Contains(prefs, MaskTex) then prefs else prefs + ("," + MaskTex);
      if !Contains(prefs, MaskTex) {
        ContainsAppended(prefs, MaskTex);
      }
      if Contains(withMask, NormalMap) {
      } else {
        ContainsInExtension(withMask, "," + NormalMap, MaskTex);
        ContainsAppended(withMask, NormalMap);
      }
    }
  }

  /** Running the merge on its own output changes nothing. */
  lemma {:induction false} SuggestedNamesIdempotent(prefs: string)
    ensures SuggestedNames(SuggestedNames(prefs)) == SuggestedNames(prefs)
  {
    var r := SuggestedNames(prefs);
    SuggestedNamesExtends(prefs);
    assert r != [];
    SuggestedNamesExtends(r);
  }

  class Renderer2DData {
    var defaultMaterialType: Renderer2DDefaultMaterialType
    var lightBlendStyles: array?<Light2DBlendStyle>
    /** The editor preference "SecondarySpriteTexturePropertyNames". */
    var suggestedNamesPrefs: string

    /** `m_DefaultMaterialType`'s initialiser; no blend styles yet. */
    constructor (prefs: string)
      ensures defaultMaterialType == Lit && lightBlendStyles == null && suggestedNamesPrefs == prefs
    {
      defaultMaterialType := Lit;
      lightBlendStyles := null;
      suggestedNamesPrefs := prefs;
    }

    method InitializeSpriteEditorPrefs()
      modifies this`suggestedNamesPrefs
      ensures suggestedNamesPrefs == SuggestedNames(old(suggestedNamesPrefs))
    {
      var prefs := suggestedNamesPrefs;
      if prefs == [] {
        suggestedNamesPrefs := MaskTex + "," + NormalMap;
      } else {
        if !Contains(prefs, MaskTex) {
          prefs := prefs + ("," + MaskTex);
        }
        if !Contains(prefs, NormalMap) {
          prefs := prefs + ("," + NormalMap);
        }
        suggestedNamesPrefs := prefs;
      }
    }

    /** `RebuildBlendStyles`: without `force`, an existing array is upgraded in
        place; otherwise a new array of the four default styles replaces it and the
        Sprite Editor preference is merged. */
    method RebuildBlendStyles(force: bool)
      modifies this`lightBlendStyles, this`suggestedNamesPrefs, lightBlendStyles
      ensures old(lightBlendStyles) != null && !force ==>
        && lightBlendStyles == old(lightBlendStyles)
        && lightBlendStyles[..] == MigrateBlendStyles(old(lightBlendStyles[..]))
        && suggestedNamesPrefs == old(suggestedNamesPrefs)
      ensures old(lightBlendStyles) == null || force ==>
        && lightBlendStyles != null && fresh(lightBlendStyles)
        && lightBlendStyles[..] == DefaultBlendStyles
        && suggestedNamesPrefs == SuggestedNames(old(suggestedNamesPrefs))
      ensures old(lightBlendStyles) != null && force ==> old(lightBlendStyles)[..] == old(lightBlendStyles[..])
    {
      if lightBlendStyles != null && !force {
        var styles := lightBlendStyles;
        for i := 0 to styles.Length
          modifies styles
          invariant forall k :: 0 <= k < i ==> styles[k] == MigrateBlendStyle(old(styles[k]))
          invariant forall k :: i <= k < styles.Length ==> styles[k] == old(styles[k])
        {
          if styles[i].blendMode == RetiredCustom {
            styles[i] := styles[i].(blendMode := Multiply);
          }
        }
        return;
      }
      var styles := new Light2DBlendStyle[4](_ => EmptyBlendStyle);
      styles[0] := styles[0].(name := "Multiply", blendMode := Multiply);
      styles[1] := styles[1].(name := "Additive", blendMode := Additive);
      styles[2] := styles[2].(name := "Multiply with Mask", blendMode := Multiply, maskTextureChannel := ChannelR);
      styles[3] := styles[3].(name := "Additive with Mask", blendMode := Additive, maskTextureChannel := ChannelR);
      lightBlendStyles := styles;
      InitializeSpriteEditorPrefs();
    }

    /** `Awake`: a non-forced rebuild. */
    method Awake()
      modifies this`lightBlendStyles, this`suggestedNamesPrefs, lightBlendStyles
      ensures old(lightBlendStyles) != null ==>
        && lightBlendStyles == old(lightBlendStyles)
        && lightBlendStyles[..] == MigrateBlendStyles(old(lightBlendStyles[..]))
        && suggestedNamesPrefs == old(suggestedNamesPrefs)
      ensures old(lightBlendStyles) == null ==>
        && lightBlendStyles != null && fresh(lightBlendStyles) && lightBlendStyles[..] == DefaultBlendStyles
        && suggestedNamesPrefs == SuggestedNames(old(suggestedNamesPrefs))
    {
      RebuildBlendStyles(false);
    }

    /** `Reset`: a forced rebuild. */
    method Reset()
      modifies this`lightBlendStyles, this`suggestedNamesPrefs, lightBlendStyles
      ensures lightBlendStyles != null && fresh(lightBlendStyles) && lightBlendStyles[..] == DefaultBlendStyles
      ensures suggestedNamesPrefs == SuggestedNames(old(suggestedNamesPrefs))
      ensures old(lightBlendStyles) != null ==> old(lightBlendStyles)[..] == old(lightBlendStyles[..])
    {
      RebuildBlendStyles(true);
    }
  }
}
