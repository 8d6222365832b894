/** `RayTracingRenderPipelineInstance`: the custom pipeline's frame loop. One
    convergence counter is shared by all cameras; every camera gets an
    `AdditionalCameraData` on first sight, and a change of its output size or of
    its matrix restarts the counter. */
module RayTracingPipeline {
  import opened RenderCommon
  import opened RayTracingAsset
  import opened AdditionalCamera

  datatype ClearColor = Magenta | Black

  /** What a frame does, in order: calls on the acceleration structure and the
      commands recorded into command buffers. */
  datatype Operation =
    | ClearRenderTarget(clearDepth: bool, color: ClearColor)
    | Rtas(call: RtasCall)
    | DispatchRays(camera: nat, convergenceStep: Int32, frameIndex: Int32,
                   bounceCountOpaque: Int32, bounceCountTransparent: Int32,
                   envTexture: Option<TextureRef>, width: UInt32, height: UInt32)
    | BlitOutput(camera: nat)

  /** What the pipeline reads of a camera. */
  datatype CameraView = CameraView(pixelWidth: Int32, pixelHeight: Int32, cameraType: CameraTypeMask, cameraToWorld: Matrix)

  /** `CullInstance`: rebuild the instance list with the one culling policy. */
  const CullOperations: seq<Operation> := [Rtas(ClearInstances), Rtas(CullInstances(RayTracingCullingConfig()))]

  /** Both checks of `ValidateRayTracing`. */
  predicate RayTracingValid(supportsRayTracing: bool, hasRtas: bool) {
    supportsRayTracing && hasRtas
  }

  datatype TraceOutcome = TraceOutcome(traced: bool, counter: Int32, operations: seq<Operation>)

  /** `DoPathTracing`: without a shader nothing is recorded and the counter is
      kept; otherwise the structure is built, rays are dispatched with the current
      counter, and the counter is incremented. */
  function TraceCamera(counter: Int32, index: nat, width: Int32, height: Int32, frameIndex: Int32,
                       asset: RayTracingRenderPipelineAsset): (t: TraceOutcome)
    ensures t.traced <==> asset.pathTracingShader.Some?
    ensures !t.traced ==> t.counter == counter && t.operations == []
    ensures t.traced ==>
      && t.counter == Inc32(counter) && |t.operations| == 2
      && t.operations[0] == Rtas(Build) && t.operations[1].DispatchRays?
      && t.operations[1].convergenceStep == counter && t.operations[1].frameIndex == frameIndex
      && t.operations[1].camera == index && t.operations[1].envTexture == asset.envTexture
  {
    if asset.pathTracingShader.None? then TraceOutcome(false, counter, [])
    else
      var dispatch := DispatchRays(index, counter, frameIndex,
                                   UIntToInt32(asset.bounceCountOpaque), UIntToInt32(asset.bounceCountTransparent),
                                   asset.envTexture, Int32ToUInt(width), Int32ToUInt(height));
      TraceOutcome(true, Inc32(counter), [Rtas(Build), dispatch])
  }

  datatype CameraOutcome = CameraOutcome(counter: Int32, data: CameraDataState, operations: seq<Operation>)

  /** One iteration of `Render`'s camera loop, on the shared counter and the
      camera's component state (a new component's state when it has none). */
  function RenderCamera(counter: Int32, index: nat, cam: CameraView, d: CameraDataState,
                        asset: RayTracingRenderPipelineAsset): CameraOutcome
  {
    var u := UpdateResourcesState(d, cam.pixelWidth, cam.pixelHeight, cam.cameraToWorld);
    var c := if u.changed then 0 else counter;
    var data := u.state.(frameIndex := Inc32(u.state.frameIndex));
    if CameraSelected(cam.cameraType, asset.activeCameraType) then
      var t := TraceCamera(c, index, cam.pixelWidth, cam.pixelHeight, u.state.frameIndex, asset);
      CameraOutcome(t.counter, data, if t.traced then t.operations + [BlitOutput(index)] else [ClearRenderTarget(false, Black)])
    else
      CameraOutcome(c, data, [ClearRenderTarget(false, Black)])
  }

  datatype FrameOutcome = FrameOutcome(counter: Int32, data: seq<CameraDataState>, operations: seq<Operation>)

  /** The camera loop over `cams`, in order; `datas[j]` is camera j's component
      state on entry. */
  function RenderCameras(counter: Int32, cams: seq<CameraView>, datas: seq<CameraDataState>,
                         asset: RayTracingRenderPipelineAsset): (r: FrameOutcome)
    requires |cams| == |datas|
    ensures |r.data| == |cams|
    decreases |cams|
  {
    if |cams| == 0 then FrameOutcome(counter, [], [])
    else
      var n := |cams| - 1;
      var prev := RenderCameras(counter, cams[..n], datas[..n], asset);
      var o := RenderCamera(prev.counter, n, cams[n], datas[n], asset);
      FrameOutcome(o.counter, prev.data + [o.data], prev.operations + o.operations)
  }

  /** A camera that is active but not traced, or not active, is cleared to black;
      in both cases a resource change still restarts the counter. */
  lemma UntracedCameraClearsBlack(counter: Int32, index: nat, cam: CameraView, d: CameraDataState,
                                  asset: RayTracingRenderPipelineAsset)
    requires !CameraSelected(cam.cameraType, asset.activeCameraType) || asset.pathTracingShader.None?
    ensures var u := UpdateResourcesState(d, cam.pixelWidth, cam.pixelHeight, cam.cameraToWorld);
      var o := RenderCamera(counter, index, cam, d, asset);
      && o.operations == [ClearRenderTarget(false, Black)]
      && o.counter == (if u.changed then 0 else counter)
  {
  }

  /** A traced camera builds the structure, dispatches with the counter as it
      stands after the resource check, and blits its output. */
  lemma TracedCameraDispatches(counter: Int32, index: nat, cam: CameraView, d: CameraDataState,
                               asset: RayTracingRenderPipelineAsset)
    requires CameraSelected(cam.cameraType, asset.activeCameraType) && asset.pathTracingShader.Some?
    ensures var u := UpdateResourcesState(d, cam.pixelWidth, cam.pixelHeight, cam.cameraToWorld);
      var step := if u.changed then 0 else counter;
      var o := RenderCamera(counter, index, cam, d, asset);
      && |o.operations| == 3 && o.operations[0] == Rtas(Build) && o.operations[2] == BlitOutput(index)
      && o.operations[1].DispatchRays? && o.operations[1].convergenceStep == step
      && o.operations[1].frameIndex == d.frameIndex && o.operations[1].camera == index
      && o.counter == Inc32(step)
  {
  }

  /** A camera whose output fits and whose matrix is the remembered one leaves the
      counter to the loop: it is traced with the current value. */
  predicate Settled(cam: CameraView, d: CameraDataState) {
    !NeedsOutput(d, cam.pixelWidth, cam.pixelHeight) && cam.cameraToWorld == d.prevCameraMatrix
  }

  /** Every camera of the loop, active or not, ends with an output of its own
      size and a frame index advanced by one (wrapping at `int.MaxValue`); a
      camera that needed no new output remembers its current matrix. */
  lemma {:induction false} EveryCameraAdvances(counter: Int32, cams: seq<CameraView>, datas: seq<CameraDataState>,
                                               asset: RayTracingRenderPipelineAsset)
    requires |cams| == |datas|
    ensures var r := RenderCameras(counter, cams, datas, asset);
      forall j :: 0 <= j < |cams| ==>
        && r.data[j].frameIndex == Inc32(datas[j].frameIndex)
        && !NeedsOutput(r.data[j], cams[j].pixelWidth, cams[j].pixelHeight)
        && (!NeedsOutput(datas[j], cams[j].pixelWidth, cams[j].pixelHeight) ==> r.data[j].prevCameraMatrix == cams[j].cameraToWorld)
    decreases |cams|
  {
    if |cams| > 0 {
      var n := |cams| - 1;
      EveryCameraAdvances(counter, cams[..n], datas[..n], asset);
      var prev := RenderCameras(counter, cams[..n], datas[..n], asset);
      var o := RenderCamera(prev.counter, n, cams[n], datas[n], asset);
      assert RenderCameras(counter, cams, datas, asset).data == prev.data + [o.data];
      if NeedsOutput(datas[n], cams[n].pixelWidth, cams[n].pixelHeight) {
        ReallocatesOnSizeMismatch(datas[n], cams[n].pixelWidth, cams[n].pixelHeight, cams[n].cameraToWorld);
      } else {
        ReportsMatrixChange(datas[n], cams[n].pixelWidth, cams[n].pixelHeight, cams[n].cameraToWorld);
      }
      forall j | 0 <= j < n
        ensures cams[..n][j] == cams[j] && datas[..n][j] == datas[j]
      {
      }
    }
  }

  /** The counter is shared: two settled, traced cameras in one frame are traced
      with consecutive counter values, and the frame advances it by two. */
  lemma SharedCounterAcrossCameras(counter: Int32, a: CameraView, b: CameraView, da: CameraDataState, db: CameraDataState,
                                   asset: RayTracingRenderPipelineAsset)
    requires Settled(a, da) && Settled(b, db) && asset.pathTracingShader.Some?
    requires CameraSelected(a.cameraType, asset.activeCameraType) && CameraSelected(b.cameraType, asset.activeCameraType)
    ensures var r := RenderCameras(counter, [a, b], [da, db], asset);
      && |r.operations| == 6
      && r.operations[1].DispatchRays? && r.operations[1].camera == 0 && r.operations[1].convergenceStep == counter
      && r.operations[4].DispatchRays? && r.operations[4].camera == 1 && r.operations[4].convergenceStep == Inc32(counter)
      && r.counter == Inc32(Inc32(counter))
  {
    TracedCameraDispatches(counter, 0, a, da, asset);
    var o1 := RenderCamera(counter, 0, a, da, asset);
    TracedCameraDispatches(o1.counter, 1, b, db, asset);
    var o2 := RenderCamera(o1.counter, 1, b, db, asset);
    assert [a][..0] == [] && [da][..0] == [];
    assert RenderCameras(counter, [a], [da], asset) == FrameOutcome(o1.counter, [o1.data], o1.operations);
    assert [a, b][..1] == [a] && [da, db][..1] == [da];
    assert RenderCameras(counter, [a, b], [da, db], asset)
      == FrameOutcome(o2.counter, [o1.data, o2.data], o1.operations + o2.operations);
  }

  /** `n` frames of a single camera whose view does not change. */
  function StaticFrames(counter: Int32, cam: CameraView, d: CameraDataState,
                        asset: RayTracingRenderPipelineAsset, n: nat): CameraOutcome
    decreases n
  {
    if n == 0 then CameraOutcome(counter, d, [])
    else
      var o := RenderCamera(counter, 0, cam, d, asset);
      var rest := StaticFrames(o.counter, cam, o.data, asset, n - 1);
      CameraOutcome(rest.counter, rest.data, o.operations + rest.operations)
  }

  /** Progressive accumulation: a settled, traced camera that keeps still for `n`
      frames advances the counter by exactly `n` and stays settled. */
  lemma {:induction false} StaticCameraAccumulates(counter: Int32, cam: CameraView, d: CameraDataState,
                                                   asset: RayTracingRenderPipelineAsset, n: nat)
    requires Settled(cam, d) && asset.pathTracingShader.Some?
    requires CameraSelected(cam.cameraType, asset.activeCameraType)
    requires counter + n <= MaxInt32
    ensures var r := StaticFrames(counter, cam, d, asset, n);
      r.counter == counter + n && Settled(cam, r.data) && |r.operations| == 3 * n
    decreases n
  {
    if n > 0 {
      TracedCameraDispatches(counter, 0, cam, d, asset);
      ReportsMatrixChange(d, cam.pixelWidth, cam.pixelHeight, cam.cameraToWorld);
      var o := RenderCamera(counter, 0, cam, d, asset);
      StaticCameraAccumulates(o.counter, cam, o.data, asset, n - 1);
    }
  }

  /** A camera seen for the first time restarts the counter. Its first call never
      stores the matrix, so unless that matrix is the zero matrix the second frame
      restarts the counter again; either way the camera is settled after the second
      frame, and from the third the counter grows while it keeps still
      (`StaticCameraAccumulates`). */
  lemma {:induction false} NewCameraRestartsCounter(counter: Int32, cam: CameraView, asset: RayTracingRenderPipelineAsset)
    requires asset.pathTracingShader.Some? && CameraSelected(cam.cameraType, asset.activeCameraType)
    ensures var o := RenderCamera(counter, 0, cam, NewCameraData, asset);
      var o2 := RenderCamera(o.counter, 0, cam, o.data, asset);
      && o.operations[1].DispatchRays? && o.operations[1].convergenceStep == 0 && o.counter == 1
      && o.data.frameIndex == 1
      && o2.operations[1].DispatchRays?
      && o2.operations[1].convergenceStep == (if cam.cameraToWorld == Zero then 1 else 0)
      && o2.counter == Inc32(o2.operations[1].convergenceStep)
      && o2.data.frameIndex == 2
      && Settled(cam, o2.data)
  {
    ReallocatesOnSizeMismatch(NewCameraData, cam.pixelWidth, cam.pixelHeight, cam.cameraToWorld);
    TracedCameraDispatches(counter, 0, cam, NewCameraData, asset);
    var o := RenderCamera(counter, 0, cam, NewCameraData, asset);
    ReportsMatrixChange(o.data, cam.pixelWidth, cam.pixelHeight, cam.cameraToWorld);
    TracedCameraDispatches(o.counter, 0, cam, o.data, asset);
  }

  /** The loop's step: rendering one more camera extends the outcome of the
      cameras before it. */
  lemma RenderCamerasSnoc(counter: Int32, cams: seq<CameraView>, datas: seq<CameraDataState>,
                          asset: RayTracingRenderPipelineAsset, i: nat)
    requires |cams| == |datas| && i < |cams|
    ensures var r := RenderCameras(counter, cams[..i], datas[..i], asset);
      var o := RenderCamera(r.counter, i, cams[i], datas[i], asset);
      RenderCameras(counter, cams[..i + 1], datas[..i + 1], asset)
        == FrameOutcome(o.counter, r.data + [o.data], r.operations + o.operations)
  {
    assert cams[..i + 1][..i] == cams[..i] && datas[..i + 1][..i] == datas[..i];
  }

  class Camera {
    var pixelWidth: Int32
    var pixelHeight: Int32
    var cameraType: CameraTypeMask
    var cameraToWorldMatrix: Matrix
    /** The `AdditionalCameraData` component of the camera's game object; it takes
        part once attached. */
    const additionalData: AdditionalCameraData

    function View(): CameraView
      reads this
    {
      CameraView(pixelWidth, pixelHeight, cameraType, cameraToWorldMatrix)
    }

    constructor (view: CameraView, component: AdditionalCameraData)
      ensures View() == view && additionalData == component
    {
      pixelWidth := view.pixelWidth;
      pixelHeight := view.pixelHeight;
      cameraType := view.cameraType;
      cameraToWorldMatrix := view.cameraToWorld;
      additionalData := component;
    }
  }

  /** The component state `Render` starts from for a camera: `TryGetComponent`
      finds the attached component, or a new one is added. */
  function DataOf(camera: Camera): CameraDataState
    reads camera.additionalData
  {
    if camera.additionalData.attached then camera.additionalData.State() else NewCameraData
  }

  /** The cameras' components. */
  function Components(cameras: seq<Camera>): set<AdditionalCameraData>
  {
    set j | 0 <= j < |cameras| :: cameras[j].additionalData
  }

  function Views(cameras: seq<Camera>): (vs: seq<CameraView>)
    reads cameras
    ensures |vs| == |cameras| && forall j :: 0 <= j < |cameras| ==> vs[j] == cameras[j].View()
  {
    if cameras == [] then [] else Views(cameras[..|cameras| - 1]) + [cameras[|cameras| - 1].View()]
  }

  function DataStates(cameras: seq<Camera>): (ds: seq<CameraDataState>)
    reads Components(cameras)
    ensures |ds| == |cameras| && forall j :: 0 <= j < |cameras| ==> ds[j] == DataOf(cameras[j])
  {
    if cameras == [] then []
    else
      var n := |cameras| - 1;
      assert forall j :: 0 <= j < n ==> cameras[..n][j] == cameras[j];
      DataStates(cameras[..n]) + [DataOf(cameras[n])]
  }

  /** No two cameras share a component (one camera per game object), hence no two
      entries are the same camera. */
  predicate DistinctComponents(cameras: seq<Camera>) {
    forall j, k :: 0 <= j < |cameras| && 0 <= k < |cameras| && j != k ==> cameras[j].additionalData != cameras[k].additionalData
  }

  class RayTracingRenderPipelineInstance {
    const renderPipelineAsset: RayTracingRenderPipelineAsset
    /** `rtas != null`. */
    var hasRtas: bool
    var convergenceStep: Int32

    constructor (asset: RayTracingRenderPipelineAsset)
      ensures renderPipelineAsset == asset && hasRtas && convergenceStep == 0
    {
      renderPipelineAsset := asset;
      hasRtas := true;
      convergenceStep := 0;
    }

    /** `Dispose`: the acceleration structure is released. */
    method Dispose()
      modifies this`hasRtas
      ensures !hasRtas
    {
      hasRtas := false;
    }

    predicate ValidateRayTracing(supportsRayTracing: bool)
      reads this
    {
      RayTracingValid(supportsRayTracing, hasRtas)
    }

    /** `CullInstance`: the calls it makes on the acceleration structure. */
    function CullInstance(): (ops: seq<Operation>)
      ensures |ops| == 2 && ops[0] == Rtas(ClearInstances)
      ensures ops[1].Rtas? && ops[1].call.CullInstances? && ops[1].call.config == RayTracingCullingConfig()
    {
      CullOperations
    }

    method DoPathTracing(index: nat, camera: Camera, frameIndex: Int32) returns (traced: bool, ops: seq<Operation>)
      modifies this`convergenceStep
      ensures TraceCamera(old(convergenceStep), index, camera.pixelWidth, camera.pixelHeight, frameIndex, renderPipelineAsset)
              == TraceOutcome(traced, convergenceStep, ops)
    {
      if renderPipelineAsset.pathTracingShader.None? {
        return false, [];
      }
      var dispatch := DispatchRays(index, convergenceStep, frameIndex,
                                   UIntToInt32(renderPipelineAsset.bounceCountOpaque),
                                   UIntToInt32(renderPipelineAsset.bounceCountTransparent),
                                   renderPipelineAsset.envTexture,
                                   Int32ToUInt(camera.pixelWidth), Int32ToUInt(camera.pixelHeight));
      ops := [Rtas(Build), dispatch];
      convergenceStep := Inc32(convergenceStep);
      traced := true;
    }

    /** The body of `Render`'s camera loop for camera `index`. */
    method RenderCameraStep(index: nat, camera: Camera) returns (ops: seq<Operation>)
      modifies this`convergenceStep, camera.additionalData
      ensures camera.additionalData.attached
      ensures var o := RenderCamera(old(convergenceStep), index, camera.View(), old(DataOf(camera)), renderPipelineAsset);
        convergenceStep == o.counter && camera.additionalData.State() == o.data && ops == o.operations
    {
      if !camera.additionalData.attached {
        camera.additionalData.Attach();
      }
      var data := camera.additionalData;
      var changed := data.UpdateCameraResources(camera.pixelWidth, camera.pixelHeight, camera.cameraToWorldMatrix);
      if changed {
        convergenceStep := 0;
      }
      if CameraSelected(camera.cameraType, renderPipelineAsset.activeCameraType) {
        var traced, traceOps := DoPathTracing(index, camera, data.frameIndex);
        if traced {
          ops := traceOps + [BlitOutput(index)];
        } else {
          ops := [ClearRenderTarget(false, Black)];
        }
      } else {
        ops := [ClearRenderTarget(false, Black)];
      }
      data.UpdateCameraData();
    }

    /** `Render`: a magenta clear when ray tracing cannot run; otherwise the
        instance list is rebuilt and every camera is rendered in turn, each
        getting its component on first sight. */
    method Render(cameras: seq<Camera>, supportsRayTracing: bool) returns (ops: seq<Operation>)
      requires DistinctComponents(cameras)
      modifies this`convergenceStep, Components(cameras)
      ensures !RayTracingValid(supportsRayTracing, hasRtas) ==>
        && ops == [ClearRenderTarget(true, Magenta)]
        && convergenceStep == old(convergenceStep)
        && unchanged(Components(cameras))
      ensures RayTracingValid(supportsRayTracing, hasRtas) ==>
        var r := RenderCameras(old(convergenceStep), old(Views(cameras)), old(DataStates(cameras)), renderPipelineAsset);
        && ops == CullOperations + r.operations
        && convergenceStep == r.counter
        && forall j :: 0 <= j < |cameras| ==>
             cameras[j].additionalData.attached && cameras[j].additionalData.State() == r.data[j]
    {
      if !ValidateRayTracing(supportsRayTracing) {
        return [ClearRenderTarget(true, Magenta)];
      }
      ops := CullInstance();
      var cameraOps := RenderEachCamera(cameras);
      ops := ops + cameraOps;
    }

    /** The `foreach` over the cameras. */
    method RenderEachCamera(cameras: seq<Camera>) returns (ops: seq<Operation>)
      requires DistinctComponents(cameras)
      modifies this`convergenceStep, Components(cameras)
      ensures var r := RenderCameras(old(convergenceStep), old(Views(cameras)), old(DataStates(cameras)), renderPipelineAsset);
        && ops == r.operations
        && convergenceStep == r.counter
        && forall j :: 0 <= j < |cameras| ==>
             cameras[j].additionalData.attached && cameras[j].additionalData.State() == r.data[j]
    {
      ghost var views := Views(cameras);
      ghost var datas := DataStates(cameras);
      ghost var c0 := convergenceStep;
      ghost var r := FrameOutcome(c0, [], []);
      ops := [];
      var i := 0;
      while i < |cameras|
        invariant 0 <= i <= |cameras|
        invariant forall j :: i <= j < |cameras| ==> DataOf(cameras[j]) == datas[j]
        invariant r == RenderCameras(c0, views[..i], datas[..i], renderPipelineAsset)
        invariant convergenceStep == r.counter && ops == r.operations
        invariant forall j :: 0 <= j < i ==> cameras[j].additionalData.attached && cameras[j].additionalData.State() == r.data[j]
      {
        var stepOps;
        stepOps, r := RenderNextCamera(cameras, i, views, datas, c0, r);
        ops := ops + stepOps;
        i := i + 1;
      }
      assert views[..i] == views && datas[..i] == datas;
    }

    /** One turn of the loop, stated on the whole camera list: camera `i` is
        rendered and the cameras before it keep their new states. */
    method RenderNextCamera(cameras: seq<Camera>, i: nat, ghost views: seq<CameraView>, ghost datas: seq<CameraDataState>,
                            ghost c0: Int32, ghost r: FrameOutcome)
      returns (stepOps: seq<Operation>, ghost next: FrameOutcome)
      requires DistinctComponents(cameras) && i < |cameras| == |views| == |datas|
      requires cameras[i].View() == views[i] && DataOf(cameras[i]) == datas[i]
      requires r == RenderCameras(c0, views[..i], datas[..i], renderPipelineAsset) && convergenceStep == r.counter
      requires forall j :: 0 <= j < i ==> cameras[j].additionalData.attached && cameras[j].additionalData.State() == r.data[j]
      modifies this`convergenceStep, cameras[i].additionalData
      ensures next == RenderCameras(c0, views[..i + 1], datas[..i + 1], renderPipelineAsset)
      ensures convergenceStep == next.counter && next.operations == r.operations + stepOps
      ensures forall j :: 0 <= j <= i ==> cameras[j].additionalData.attached && cameras[j].additionalData.State() == next.data[j]
    {
      RenderCamerasSnoc(c0, views, datas, renderPipelineAsset, i);
      ghost var o := RenderCamera(convergenceStep, i, views[i], datas[i], renderPipelineAsset);
      stepOps := RenderCameraStep(i, cameras[i]);
      next := FrameOutcome(o.counter, r.data + [o.data], r.operations + o.operations);
      forall j | 0 <= j < i
        ensures cameras[j].additionalData.attached && cameras[j].additionalData.State() == next.data[j]
      {
        assert cameras[j].additionalData != cameras[i].additionalData;
      }
    }
  }

  /** `CreatePipeline`: a new instance over the asset, with a fresh acceleration
      structure and the counter at 0. */
  method CreatePipeline(asset: RayTracingRenderPipelineAsset) returns (p: RayTracingRenderPipelineInstance)
    ensures fresh(p) && p.renderPipelineAsset == asset && p.hasRtas && p.convergenceStep == 0
  {
    p := new RayTracingRenderPipelineInstance(asset);
  }
}
