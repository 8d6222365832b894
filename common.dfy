/** Types shared by both path-tracing variants: optional references, C#'s 32-bit
    `int`, 4x4 matrices compared for equality only, the camera-type mask test,
    texture formats and the instance-culling policy of the acceleration structure. */
module RenderCommon {

  /** A reference that may be null. */
  datatype Option<+T> = None | Some(value: T)

  /** C#'s `int`. */
  const MinInt32: int := -0x8000_0000
  const MaxInt32: int := 0x7FFF_FFFF
  type Int32 = x: int | MinInt32 <= x <= MaxInt32

  /** `x++` / `x + 1` on a C# `int` in an unchecked context: wraps at the top. */
  function Inc32(x: Int32): (r: Int32)
    ensures x < MaxInt32 ==> r == x + 1
    ensures x == MaxInt32 ==> r == MinInt32
  {
    if x == MaxInt32 then MinInt32 else x + 1
  }

  /** A 4x4 matrix, row-major; only equality is observed by the core. */
  datatype Matrix = Matrix(entries: seq<real>)

  /** `Matrix4x4.identity`. */
  const Identity: Matrix := Matrix([1.0, 0.0, 0.0, 0.0,
                                    0.0, 1.0, 0.0, 0.0,
                                    0.0, 0.0, 1.0, 0.0,
                                    0.0, 0.0, 0.0, 1.0])

  /** `Matrix4x4.zero`. */
  const Zero: Matrix := Matrix([0.0, 0.0, 0.0, 0.0,
                                0.0, 0.0, 0.0, 0.0,
                                0.0, 0.0, 0.0, 0.0,
                                0.0, 0.0, 0.0, 0.0])

  /** `CameraType` is a flags enum over `int`. */
  type CameraTypeMask = bv32
  const Game: CameraTypeMask := 1
  const SceneView: CameraTypeMask := 2
  const Preview: CameraTypeMask := 4
  const VR: CameraTypeMask := 8
  const Reflection: CameraTypeMask := 16

  /** `(cameraType & mask) > 0`: the comparison is on a signed `int`, so a result
      with the sign bit set is negative and does not select the camera. */
  predicate CameraSelected(cameraType: CameraTypeMask, mask: CameraTypeMask) {
    var shared := cameraType & mask;
    shared != 0 && shared & 0x8000_0000 == 0
  }

  /** For camera types without the sign bit (all of `CameraType`'s members), the
      test is "the two share a flag". */
  lemma CameraSelectedIffShared(cameraType: CameraTypeMask, mask: CameraTypeMask)
    requires cameraType & 0x8000_0000 == 0
    ensures CameraSelected(cameraType, mask) <==> cameraType & mask != 0
  {
  }

  /** An empty mask selects no camera. */
  lemma EmptyMaskSelectsNothing(cameraType: CameraTypeMask)
    ensures !CameraSelected(cameraType, 0)
  {
  }

  /** `GraphicsFormat`, as far as the core distinguishes formats. */
  datatype GraphicsFormat = FormatNone | R32G32B32A32_SFloat | R16G16B16A16_SFloat | OtherFormat(code: nat)

  /** An environment (or other) texture asset, by identity. */
  datatype TextureRef = TextureRef(id: nat)

  /** `ShadowCastingMode`: Off, On, TwoSided, ShadowsOnly (0 to 3). */
  datatype ShadowCastingMode = Off | On | TwoSided | ShadowsOnly

  function ShadowModeBit(mode: ShadowCastingMode): bv32 {
    match mode
    case Off => 1 << 0
    case On => 1 << 1
    case TwoSided => 1 << 2
    case ShadowsOnly => 1 << 3
  }

  /** `RayTracingSubMeshFlags`: an empty set is `Disabled`. */
  datatype SubMeshFlag = Enabled | ClosestHitOnly

  datatype InstanceCullingTest = InstanceCullingTest(
    allowOpaqueMaterials: bool,
    allowTransparentMaterials: bool,
    allowAlphaTestedMaterials: bool,
    layerMask: Int32,
    shadowCastingModeMask: bv32,
    instanceMask: bv32)

  datatype InstanceCullingConfig = InstanceCullingConfig(
    noCullingFlags: bool,
    opaqueMaterials: set<SubMeshFlag>,
    transparentMaterials: set<SubMeshFlag>,
    alphaTestedMaterials: set<SubMeshFlag>,
    instanceTests: seq<InstanceCullingTest>)

  /** What a culling test lets into the acceleration structure, by material kind. */
  datatype MaterialKind = Opaque | Transparent | AlphaTested

  predicate TestAdmits(t: InstanceCullingTest, kind: MaterialKind, shadow: ShadowCastingMode) {
    && (match kind
        case Opaque => t.allowOpaqueMaterials
        case Transparent => t.allowTransparentMaterials
        case AlphaTested => t.allowAlphaTestedMaterials)
    && t.shadowCastingModeMask & ShadowModeBit(shadow) != 0
  }

  /** The one culling configuration both variants build before culling the scene
      into the acceleration structure. */
  function RayTracingCullingConfig(): (c: InstanceCullingConfig)
    ensures |c.instanceTests| == 1
    ensures forall kind, shadow :: TestAdmits(c.instanceTests[0], kind, shadow)
              <==> kind != Transparent && shadow != ShadowsOnly
    ensures c.transparentMaterials == {} && Enabled in c.opaqueMaterials && Enabled in c.alphaTestedMaterials
  {
    var test := InstanceCullingTest(
      allowOpaqueMaterials := true,
      allowTransparentMaterials := false,
      allowAlphaTestedMaterials := true,
      layerMask := -1,
      shadowCastingModeMask := ShadowModeBit(Off) | ShadowModeBit(On) | ShadowModeBit(TwoSided),
      instanceMask := 1 << 0);
    InstanceCullingConfig(
      noCullingFlags := true,
      opaqueMaterials := {Enabled, ClosestHitOnly},
      transparentMaterials := {},
      alphaTestedMaterials := {Enabled},
      instanceTests := [test])
  }

  /** Calls made on a `RayTracingAccelerationStructure`. */
  datatype RtasCall = ClearInstances | CullInstances(config: InstanceCullingConfig) | Build
}
