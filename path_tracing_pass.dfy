/** The URP variant: `PathTracingPass` with its per-camera history item
    `PathTracingPersistenData`, which owns the accumulation texture, the
    convergence counter and the previous camera-to-world matrix. */
module PathTracingPasses {
  import opened RenderCommon
  import opened PathTracingVolume

  /** The fields of `RenderTextureDescriptor` the pass reads or writes. */
  datatype RenderTextureDescriptor = RenderTextureDescriptor(
    width: Int32,
    height: Int32,
    volumeDepth: Int32,
    msaaSamples: Int32,
    mipCount: Int32,
    graphicsFormat: GraphicsFormat,
    sRGB: bool,
    depthBufferBits: Int32,
    dimension: Int32,
    memoryless: Int32,
    useMipMap: bool,
    autoGenerateMips: bool,
    enableRandomWrite: bool,
    bindMS: bool,
    useDynamicScale: bool)

  /** `default(RenderTextureDescriptor)`. */
  const EmptyDescriptor: RenderTextureDescriptor :=
    RenderTextureDescriptor(0, 0, 0, 0, 0, FormatNone, false, 0, 0, 0, false, false, false, false, false)

  /** The camera target can back an accumulation texture. */
  predicate IsAllocatable(d: RenderTextureDescriptor) {
    d.width > 0 && d.height > 0 && d.graphicsFormat != FormatNone
  }

  /** The descriptor of the accumulation texture derived from the camera target:
      single-sampled, no mips, 4 x 32-bit float, linear, no depth, writable from
      kernels, no dynamic scaling. */
  function AccumulationDescriptor(d: RenderTextureDescriptor): (acc: RenderTextureDescriptor)
    ensures acc.msaaSamples == 1 && acc.mipCount == 0 && acc.depthBufferBits == 0
    ensures acc.graphicsFormat == R32G32B32A32_SFloat && !acc.sRGB
    ensures !acc.useMipMap && !acc.autoGenerateMips && !acc.bindMS && !acc.useDynamicScale
    ensures acc.enableRandomWrite
    ensures acc.width == d.width && acc.height == d.height && acc.volumeDepth == d.volumeDepth
    ensures acc.dimension == d.dimension && acc.memoryless == d.memoryless
  {
    d.(msaaSamples := 1, mipCount := 0, graphicsFormat := R32G32B32A32_SFloat, sRGB := false,
       depthBufferBits := 0, useMipMap := false, autoGenerateMips := false,
       enableRandomWrite := true, bindMS := false, useDynamicScale := false)
  }

  /** The camera-target fields that survive normalisation. */
  predicate SameTargetShape(d1: RenderTextureDescriptor, d2: RenderTextureDescriptor) {
    && d1.width == d2.width && d1.height == d2.height && d1.volumeDepth == d2.volumeDepth
    && d1.dimension == d2.dimension && d1.memoryless == d2.memoryless
  }

  /** Two camera targets give the same accumulation descriptor exactly when they
      agree on size, depth slices, dimension and memoryless mode; MSAA, format,
      mips and the other normalised fields never cause a reallocation. */
  lemma AccumulationDescriptorDependsOnShapeOnly(d1: RenderTextureDescriptor, d2: RenderTextureDescriptor)
    ensures AccumulationDescriptor(d1) == AccumulationDescriptor(d2) <==> SameTargetShape(d1, d2)
  {
    if SameTargetShape(d1, d2) {
      var a1, a2 := AccumulationDescriptor(d1), AccumulationDescriptor(d2);
      assert a1.width == a2.width && a1.height == a2.height && a1.volumeDepth == a2.volumeDepth;
    }
  }

  /** Normalising twice is normalising once, and a normalised descriptor is allocatable
      whenever the camera target has a positive size. */
  lemma AccumulationDescriptorIdempotent(d: RenderTextureDescriptor)
    ensures AccumulationDescriptor(AccumulationDescriptor(d)) == AccumulationDescriptor(d)
    ensures d.width > 0 && d.height > 0 ==> IsAllocatable(AccumulationDescriptor(d))
  {
  }

  /** `m_DescKey`: `Hash128` taken to be collision-free, so a descriptor's key is the
      descriptor itself. `DefaultKey` is the zero hash a new item starts with and
      `ZeroKey` is `Hash128.Compute(0)`, stored by `Reset`. Neither equals any
      descriptor's key. */
  datatype DescKey = DefaultKey | ZeroKey | KeyOf(desc: RenderTextureDescriptor)

  /** The state of one `PathTracingPersistenData`; `texture` is the accumulation
      texture slot of the history system (None while it holds no texture). */
  datatype AccumulationState = AccumulationState(
    convergenceStep: Int32,
    prevCameraMatrix: Matrix,
    descriptor: RenderTextureDescriptor,
    descKey: DescKey,
    texture: Option<RenderTextureDescriptor>)

  /** The history item holds a texture exactly when its key names a descriptor, and
      then the texture, the stored descriptor and the key agree. */
  predicate Consistent(s: AccumulationState) {
    && (s.texture.Some? <==> s.descKey.KeyOf?)
    && (s.texture.Some? ==> s.descKey.desc == s.texture.value == s.descriptor)
  }

  /** `OnCreate`. */
  const Created: AccumulationState :=
    AccumulationState(0, Identity, EmptyDescriptor, DefaultKey, None)

  /** `Reset`: release the texture, forget the descriptor and restart accumulation. */
  function ResetState(s: AccumulationState): (r: AccumulationState)
    ensures r.texture == None && r.descKey == ZeroKey && r.convergenceStep == 0 && r.prevCameraMatrix == Identity
    ensures r.descriptor == s.descriptor.(width := 0, height := 0, graphicsFormat := FormatNone)
    ensures Consistent(r)
  {
    AccumulationState(0, Identity, s.descriptor.(width := 0, height := 0, graphicsFormat := FormatNone), ZeroKey, None)
  }

  /** `Alloc`: allocate the texture for `d` and remember `d` and its key. */
  function AllocState(s: AccumulationState, d: RenderTextureDescriptor): (r: AccumulationState)
    ensures r.texture == Some(d) && r.descriptor == d && r.descKey == KeyOf(d)
    ensures r.convergenceStep == s.convergenceStep && r.prevCameraMatrix == s.prevCameraMatrix
    ensures Consistent(r)
  {
    s.(texture := Some(d), descriptor := d, descKey := KeyOf(d))
  }

  /** The accumulation rule: one more sample on an unchanged camera with
      accumulation on, otherwise start again. There is no cap. */
  function NextStep(step: Int32, prev: Matrix, camera: Matrix, accumulation: bool): Int32 {
    if prev == camera && accumulation then Inc32(step) else 0
  }

  /** The key of the accumulation descriptor differs from the stored one. */
  predicate IsDirty(s: AccumulationState, cameraDesc: RenderTextureDescriptor) {
    s.descKey != KeyOf(AccumulationDescriptor(cameraDesc))
  }

  datatype UpdateOutcome = UpdateOutcome(state: AccumulationState, reallocated: bool)

  /** `Update`: advance or restart the counter, then (for an allocatable target)
      reset on a key change and allocate when there is no texture. */
  function UpdateState(s: AccumulationState, cameraDesc: RenderTextureDescriptor, accumulation: bool, cameraMatrix: Matrix): UpdateOutcome {
    var stepped := s.(convergenceStep := NextStep(s.convergenceStep, s.prevCameraMatrix, cameraMatrix, accumulation),
                      prevCameraMatrix := cameraMatrix);
    if IsAllocatable(cameraDesc) then
      var acc := AccumulationDescriptor(cameraDesc);
      var checked := if IsDirty(stepped, cameraDesc) then ResetState(stepped) else stepped;
      if checked.texture.None? then UpdateOutcome(AllocState(checked, acc), true)
      else UpdateOutcome(checked, false)
    else
      UpdateOutcome(stepped, false)
  }

  /** Without a reset, the counter follows the accumulation rule and the current
      matrix is remembered; a reset (key change on an allocatable target) leaves
      step 0 and the identity matrix, whatever the camera did. */
  lemma UpdateCounterAndMatrix(s: AccumulationState, d: RenderTextureDescriptor, accumulation: bool, m: Matrix)
    ensures var r := UpdateState(s, d, accumulation, m).state;
      if IsAllocatable(d) && IsDirty(s, d) then r.convergenceStep == 0 && r.prevCameraMatrix == Identity
      else r.convergenceStep == NextStep(s.convergenceStep, s.prevCameraMatrix, m, accumulation) && r.prevCameraMatrix == m
  {
  }

  /** A target with no size or no format allocates nothing and leaves the texture,
      descriptor and key alone. */
  lemma UpdateIgnoresUnallocatableTarget(s: AccumulationState, d: RenderTextureDescriptor, accumulation: bool, m: Matrix)
    requires !IsAllocatable(d)
    ensures var u := UpdateState(s, d, accumulation, m);
      && !u.reallocated
      && u.state.texture == s.texture && u.state.descriptor == s.descriptor && u.state.descKey == s.descKey
  {
  }

  /** On an allocatable target, `Update` reports an allocation exactly when the key
      changed, and then holds the accumulation descriptor and its key; otherwise
      the texture is kept. Consistency is preserved either way. */
  lemma UpdateAllocatesExactlyOnKeyChange(s: AccumulationState, d: RenderTextureDescriptor, accumulation: bool, m: Matrix)
    requires Consistent(s)
    ensures var u := UpdateState(s, d, accumulation, m);
      && Consistent(u.state)
      && (u.reallocated <==> IsAllocatable(d) && IsDirty(s, d))
      && (u.reallocated ==> var acc := AccumulationDescriptor(d);
            u.state.texture == Some(acc) && u.state.descriptor == acc && u.state.descKey == KeyOf(acc))
      && (!u.reallocated ==> u.state.texture == s.texture)
  {
  }

  /** A repeated `Update` with the same target does not reallocate. */
  lemma SecondUpdateDoesNotReallocate(s: AccumulationState, d: RenderTextureDescriptor, a1: bool, m1: Matrix, a2: bool, m2: Matrix)
    requires Consistent(s)
    ensures var u1 := UpdateState(s, d, a1, m1);
      var u2 := UpdateState(u1.state, d, a2, m2);
      !u2.reallocated && u2.state.texture == u1.state.texture
  {
    var u1 := UpdateState(s, d, a1, m1);
    UpdateAllocatesExactlyOnKeyChange(s, d, a1, m1);
    UpdateAllocatesExactlyOnKeyChange(u1.state, d, a2, m2);
  }

  /** `n` frames with the same camera target, the same matrix and accumulation on. */
  function StaticFrames(s: AccumulationState, d: RenderTextureDescriptor, m: Matrix, n: nat): AccumulationState
    decreases n
  {
    if n == 0 then s else StaticFrames(UpdateState(s, d, true, m).state, d, m, n - 1)
  }

  /** On a static camera whose texture already matches the target, every frame adds
      exactly one to the counter (below the `int` limit) and the texture stays. */
  lemma {:induction false} StaticCameraCountsFrames(s: AccumulationState, d: RenderTextureDescriptor, m: Matrix, n: nat)
    requires Consistent(s) && s.prevCameraMatrix == m
    requires !IsAllocatable(d) || s.descKey == KeyOf(AccumulationDescriptor(d))
    requires s.convergenceStep + n <= MaxInt32
    decreases n
    ensures var r := StaticFrames(s, d, m, n);
      && r.convergenceStep == s.convergenceStep + n
      && r.texture == s.texture && r.descKey == s.descKey && r.prevCameraMatrix == m
      && Consistent(r)
  {
    if n > 0 {
      var next := UpdateState(s, d, true, m).state;
      UpdateAllocatesExactlyOnKeyChange(s, d, true, m);
      assert next.convergenceStep == s.convergenceStep + 1;
      StaticCameraCountsFrames(next, d, m, n - 1);
    }
  }

  /** The first frames of a new history item on a still, non-identity camera: the
      first allocates and resets (step 0, identity remembered), so the second also
      yields step 0; counting starts on the third. */
  lemma NewItemFirstFrames(d: RenderTextureDescriptor, m: Matrix)
    requires IsAllocatable(d) && m != Identity
    ensures var u1 := UpdateState(Created, d, true, m);
      var u2 := UpdateState(u1.state, d, true, m);
      var u3 := UpdateState(u2.state, d, true, m);
      && u1.reallocated && u1.state.convergenceStep == 0 && u1.state.prevCameraMatrix == Identity
      && !u2.reallocated && u2.state.convergenceStep == 0 && u2.state.prevCameraMatrix == m
      && !u3.reallocated && u3.state.convergenceStep == 1
  {
    var u1 := UpdateState(Created, d, true, m);
    assert u1.state.descKey == KeyOf(AccumulationDescriptor(d));
  }

  /** A resize of an allocated target reallocates and restarts accumulation, even
      on a still camera. */
  lemma ResizeReallocatesAndRestarts(s: AccumulationState, d1: RenderTextureDescriptor, d2: RenderTextureDescriptor, m: Matrix)
    requires Consistent(s) && s.texture == Some(AccumulationDescriptor(d1))
    requires IsAllocatable(d2) && (d2.width != d1.width || d2.height != d1.height)
    ensures var u := UpdateState(s, d2, true, m);
      u.reallocated && u.state.convergenceStep == 0 && u.state.texture == Some(AccumulationDescriptor(d2))
  {
    assert AccumulationDescriptor(d2) != AccumulationDescriptor(d1) by {
      AccumulationDescriptorDependsOnShapeOnly(d1, d2);
    }
  }

  /** A moved camera restarts the counter at 0. */
  lemma MotionRestartsCounter(s: AccumulationState, d: RenderTextureDescriptor, accumulation: bool, m: Matrix)
    requires m != s.prevCameraMatrix
    ensures UpdateState(s, d, accumulation, m).state.convergenceStep == 0
  {
  }

  /** `PathTracingPersistenData`. */
  class PathTracingPersistenData {
    var convergenceStep: Int32
    var prevCameraMatrix: Matrix
    var descriptor: RenderTextureDescriptor
    var descKey: DescKey
    var accumulationTexture: Option<RenderTextureDescriptor>

    function State(): AccumulationState
      reads this
    {
      AccumulationState(convergenceStep, prevCameraMatrix, descriptor, descKey, accumulationTexture)
    }

    ghost predicate Valid()
      reads this
    {
      Consistent(State())
    }

    /** `OnCreate`. */
    constructor OnCreate()
      ensures State() == Created && Valid()
    {
      convergenceStep := 0;
      prevCameraMatrix := Identity;
      descriptor := EmptyDescriptor;
      descKey := DefaultKey;
      accumulationTexture := None;
    }

    method Reset()
      modifies this
      ensures State() == ResetState(old(State()))
    {
      accumulationTexture := None;
      descriptor := descriptor.(width := 0, height := 0, graphicsFormat := FormatNone);
      descKey := ZeroKey;
      convergenceStep := 0;
      prevCameraMatrix := Identity;
    }

    /** `IsValid`: the history system holds a texture for this item. */
    predicate HasTexture()
      reads this
    {
      accumulationTexture.Some?
    }

    method Alloc(desc: RenderTextureDescriptor)
      modifies this
      ensures State() == AllocState(old(State()), desc)
    {
      accumulationTexture := Some(desc);
      descriptor := desc;
      descKey := KeyOf(desc);
    }

    method Update(cameraDesc: RenderTextureDescriptor, accumulation: bool, cameraMatrix: Matrix) returns (reallocated: bool)
      modifies this
      ensures UpdateState(old(State()), cameraDesc, accumulation, cameraMatrix) == UpdateOutcome(State(), reallocated)
      ensures old(Valid()) ==> Valid()
    {
      ghost var before := State();
      convergenceStep := if prevCameraMatrix == cameraMatrix && accumulation then Inc32(convergenceStep) else 0;
      prevCameraMatrix := cameraMatrix;
      reallocated := false;
      if cameraDesc.width > 0 && cameraDesc.height > 0 && cameraDesc.graphicsFormat != FormatNone {
        var accDesc := AccumulationDescriptor(cameraDesc);
        if descKey != KeyOf(accDesc) {
          Reset();
        }
        if !HasTexture() {
          Alloc(accDesc);
          reallocated := true;
        }
      }
      if Consistent(before) {
        UpdateAllocatesExactlyOnKeyChange(before, cameraDesc, accumulation, cameraMatrix);
      }
    }
  }

  /** What `RecordRenderGraph` decides from the counter after `Update`. */
  datatype FramePlan = FramePlan(rayGeneration: bool, kernelStep: Int32, ratio: real)

  function PlanFrame(step: Int32, maximumSamples: Int32, accumulation: bool): (p: FramePlan)
    requires maximumSamples >= 1
    ensures p.rayGeneration <==> step < maximumSamples
    ensures p.kernelStep == (if p.rayGeneration && accumulation then step else 0)
    ensures p.ratio == p.kernelStep as real / maximumSamples as real
  {
    var local := if step < maximumSamples then (if accumulation then step else 0) else 0;
    FramePlan(step < maximumSamples, local, local as real / maximumSamples as real)
  }

  /** For a non-negative counter, the blit ratio lies in [0, 1), and is 0 whenever
      ray generation is skipped or accumulation is off. */
  lemma PlanRatioInUnitInterval(step: Int32, maximumSamples: Int32, accumulation: bool)
    requires maximumSamples >= 1 && step >= 0
    ensures var p := PlanFrame(step, maximumSamples, accumulation);
      && 0.0 <= p.ratio < 1.0
      && (!p.rayGeneration || !accumulation ==> p.ratio == 0.0)
  {
    var p := PlanFrame(step, maximumSamples, accumulation);
    assert 0 <= p.kernelStep < maximumSamples;
    QuotientInUnitInterval(p.kernelStep as real, maximumSamples as real);
  }

  lemma QuotientInUnitInterval(k: real, m: real)
    requires 0.0 <= k < m
    ensures 0.0 <= k / m < 1.0
  {
  }

  /** A pass added to the render graph. */
  datatype RecordedPass =
    | RayGenerationPass(convergenceStep: Int32, bounceCount: Int32, maxSamples: Int32, frameCount: Int32,
                        envTexture: Option<TextureRef>, width: Int32, height: Int32)
    | BlitPass(convergenceRatio: real)

  /** The camera as the pass sees it on one frame. */
  datatype CameraFrame = CameraFrame(
    targetDescriptor: RenderTextureDescriptor,
    cameraToWorld: Matrix,
    pixelWidth: Int32,
    pixelHeight: Int32)

  /** The passes recorded once the history item is up to date: nothing without a
      texture; otherwise optionally ray generation, then always the blit. */
  function FramePasses(s: AccumulationState, settings: PathTracing, camera: CameraFrame, frameCount: Int32): seq<RecordedPass>
    requires settings.WellFormed()
  {
    if s.texture.None? then []
    else
      var plan := PlanFrame(s.convergenceStep, settings.maximumSamples, settings.accumulation);
      (if plan.rayGeneration
       then [RayGenerationPass(plan.kernelStep, settings.bounceCount, settings.maximumSamples, frameCount,
                               settings.envTexture, camera.pixelWidth, camera.pixelHeight)]
       else [])
      + [BlitPass(plan.ratio)]
  }

  /** With a texture, the frame ends with exactly one blit, preceded by ray
      generation exactly when the counter is below the sample budget; the kernel
      gets the counter when accumulating and 0 otherwise. */
  lemma FramePassesShape(s: AccumulationState, settings: PathTracing, camera: CameraFrame, frameCount: Int32)
    requires settings.WellFormed()
    ensures var ps := FramePasses(s, settings, camera, frameCount);
      && (s.texture.None? <==> ps == [])
      && (s.texture.Some? ==>
            && ps[|ps| - 1].BlitPass?
            && (|ps| == 2 <==> s.convergenceStep < settings.maximumSamples)
            && (|ps| == 2 ==>
                  (ps[0].RayGenerationPass? &&
                   ps[0].convergenceStep == (if settings.accumulation then s.convergenceStep else 0)))
            && (s.convergenceStep >= 0 ==> 0.0 <= ps[|ps| - 1].convergenceRatio < 1.0))
  {
    if s.texture.Some? && s.convergenceStep >= 0 {
      PlanRatioInUnitInterval(s.convergenceStep, settings.maximumSamples, settings.accumulation);
    }
  }

  /** A static camera on a prepared item keeps tracing for exactly `maximumSamples`
      more frames counted from step 0; from then on only the blit is recorded. */
  lemma {:induction false} TracingStopsAtSampleBudget(s: AccumulationState, d: RenderTextureDescriptor, m: Matrix, n: nat,
                                                      settings: PathTracing, camera: CameraFrame, frameCount: Int32)
    requires settings.WellFormed() && settings.accumulation
    requires Consistent(s) && s.prevCameraMatrix == m && s.convergenceStep == 0
    requires IsAllocatable(d) && s.descKey == KeyOf(AccumulationDescriptor(d))
    requires n <= MaxInt32
    ensures var ps := FramePasses(StaticFrames(s, d, m, n), settings, camera, frameCount);
      |ps| == (if n < settings.maximumSamples then 2 else 1)
  {
    StaticCameraCountsFrames(s, d, m, n);
    FramePassesShape(StaticFrames(s, d, m, n), settings, camera, frameCount);
  }

  /** `PathTracingPass`. */
  class PathTracingPass {
    /** `rayTracingResources` was found in the graphics settings. */
    const hasRayTracingResources: bool
    /** `m_AccelerationStructure` is not null. */
    const hasAccelerationStructure: bool
    const instanceCullingConfig: InstanceCullingConfig
    /** `m_PathTracing`, the component fetched from the volume stack. */
    var pathTracing: Option<PathTracing>
    /** The calls made so far on the acceleration structure. */
    var rtasCalls: seq<RtasCall>

    constructor (resourcesFound: bool)
      ensures hasRayTracingResources == resourcesFound && hasAccelerationStructure
      ensures instanceCullingConfig == RayTracingCullingConfig()
      ensures pathTracing == None && rtasCalls == []
    {
      hasRayTracingResources := resourcesFound;
      hasAccelerationStructure := true;
      instanceCullingConfig := RayTracingCullingConfig();
      pathTracing := None;
      rtasCalls := [];
    }

    /** `IsValid`. */
    predicate IsValid(supportsRayTracing: bool)
      reads this
    {
      supportsRayTracing && hasRayTracingResources && pathTracing.Some? && hasAccelerationStructure
    }

    /** `UpdateRTAS`: clear, cull, build, in that order. */
    method UpdateRTAS()
      modifies this`rtasCalls
      ensures rtasCalls == old(rtasCalls) + [ClearInstances, CullInstances(instanceCullingConfig), Build]
    {
      rtasCalls := rtasCalls + [ClearInstances];
      rtasCalls := rtasCalls + [CullInstances(instanceCullingConfig)];
      rtasCalls := rtasCalls + [Build];
    }

    /** `RecordRenderGraph`. `component` is what the volume stack returns,
        `historyManager` whether the camera has a history manager and `history`
        what that manager hands out for writing. */
    method RecordRenderGraph(supportsRayTracing: bool, component: Option<PathTracing>, historyManager: bool,
                             history: PathTracingPersistenData?, camera: CameraFrame, frameCount: Int32)
      returns (passes: seq<RecordedPass>)
      requires component.Some? ==> component.value.WellFormed()
      modifies this`pathTracing, this`rtasCalls, history
      ensures pathTracing == component
      ensures !IsValid(supportsRayTracing) ==>
        passes == [] && rtasCalls == old(rtasCalls) && (history != null ==> unchanged(history))
      ensures IsValid(supportsRayTracing) ==>
        rtasCalls == old(rtasCalls) + [ClearInstances, CullInstances(instanceCullingConfig), Build]
      ensures IsValid(supportsRayTracing) && (!historyManager || history == null) ==>
        passes == [] && (history != null ==> unchanged(history))
      ensures IsValid(supportsRayTracing) && historyManager && history != null ==>
        var settings := component.value;
        var u := UpdateState(old(history.State()), camera.targetDescriptor, settings.accumulation, camera.cameraToWorld);
        history.State() == u.state && passes == FramePasses(u.state, settings, camera, frameCount)
    {
      pathTracing := component;
      passes := [];
      if !IsValid(supportsRayTracing) {
        return;
      }
      UpdateRTAS();
      if !historyManager || history == null {
        return;
      }
      var settings := pathTracing.value;
      var _ := history.Update(camera.targetDescriptor, settings.accumulation, camera.cameraToWorld);
      if history.HasTexture() {
        var convergenceStep := 0;
        if history.convergenceStep < settings.maximumSamples {
          convergenceStep := if settings.accumulation then history.convergenceStep else 0;
          passes := passes + [RayGenerationPass(convergenceStep, settings.bounceCount, settings.maximumSamples,
                                                frameCount, settings.envTexture, camera.pixelWidth, camera.pixelHeight)];
        }
        passes := passes + [BlitPass(convergenceStep as real / settings.maximumSamples as real)];
      }
    }
  }
}
