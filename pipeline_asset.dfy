/** `RayTracingRenderPipelineAsset`: the settings of the custom (non-URP) ray
    tracing pipeline, and the pipeline it creates. */
module RayTracingAsset {
  import opened RenderCommon

  /** C#'s `uint`. */
  const MaxUInt32: int := 0xFFFF_FFFF
  type UInt32 = x: int | 0 <= x <= MaxUInt32

  /** `(int)x` on a `uint` in an unchecked context: values above `int.MaxValue`
      wrap to negative ones. */
  function UIntToInt32(x: UInt32): (r: Int32)
    ensures x <= MaxInt32 ==> r == x
    ensures x > MaxInt32 ==> r == x - 0x1_0000_0000 && r < 0
  {
    if x <= MaxInt32 then x else x - 0x1_0000_0000
  }

  /** `(uint)x` on an `int` in an unchecked context: negative values wrap to large
      ones. */
  function Int32ToUInt(x: Int32): (r: UInt32)
    ensures x >= 0 ==> r == x
    ensures x < 0 ==> r == x + 0x1_0000_0000 && r > MaxInt32
  {
    if x >= 0 then x else x + 0x1_0000_0000
  }

  datatype RayTracingStyle = PATH_TRACING

  /** A ray-tracing shader asset, by identity. */
  datatype ShaderRef = ShaderRef(id: nat)

  datatype RayTracingRenderPipelineAsset = RayTracingRenderPipelineAsset(
    pathTracingShader: Option<ShaderRef>,
    envTexture: Option<TextureRef>,
    bounceCount: UInt32,
    rayTracingStyle: RayTracingStyle,
    activeCameraType: CameraTypeMask,
    bounceCountOpaque: UInt32,
    bounceCountTransparent: UInt32)
  {
    /** What the `[Range(1, 100)]` sliders let the inspector store. */
    predicate InInspectorRange() {
      && 1 <= bounceCount <= 100
      && 1 <= bounceCountOpaque <= 100
      && 1 <= bounceCountTransparent <= 100
    }
  }

  /** The field initialisers; `activeCameraType` has none and starts at 0. */
  const DefaultAsset: RayTracingRenderPipelineAsset := RayTracingRenderPipelineAsset(
    pathTracingShader := None,
    envTexture := None,
    bounceCount := 8,
    rayTracingStyle := PATH_TRACING,
    activeCameraType := 0,
    bounceCountOpaque := 5,
    bounceCountTransparent := 8)

  /** A new asset is in range, has no shader, and its empty camera mask selects no
      camera, whatever its type. */
  lemma DefaultAssetSelectsNoCamera(cameraType: CameraTypeMask)
    ensures DefaultAsset.InInspectorRange()
    ensures DefaultAsset.pathTracingShader.None?
    ensures !CameraSelected(cameraType, DefaultAsset.activeCameraType)
  {
    EmptyMaskSelectsNothing(cameraType);
  }

  /** Within the inspector's range the bounce counts reach the shader unchanged
      and positive. */
  lemma InRangeBounceCountsReachShader(asset: RayTracingRenderPipelineAsset)
    requires asset.InInspectorRange()
    ensures 1 <= UIntToInt32(asset.bounceCountOpaque) <= 100
    ensures 1 <= UIntToInt32(asset.bounceCountTransparent) <= 100
    ensures UIntToInt32(asset.bounceCountOpaque) == asset.bounceCountOpaque
    ensures UIntToInt32(asset.bounceCountTransparent) == asset.bounceCountTransparent
  {
  }
}
