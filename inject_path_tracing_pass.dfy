/** `InjectPathTracingPass`: the per-camera hook that decides whether the URP
    path-tracing pass is enqueued, creating the pass on first use. */
module InjectPathTracing {
  import opened RenderCommon
  import opened PathTracingVolume
  import opened PathTracingPasses

  /** `VolumeManager.instance.stack`, reduced to the component it yields. */
  datatype VolumeStack = VolumeStack(pathTracing: Option<PathTracing>)

  /** What one `InjectPass` call does for its camera. */
  datatype InjectOutcome =
    | Disabled                       // no stack, no component, or `enable` off
    | MissingEnvironmentTexture      // warned and returned early
    | CameraNotSelected              // camera type outside `activeCamera`
    | Enqueued(pass: PathTracingPass?)
    | NoPass                         // camera selected, but no pass could be created

  /** The first guard: a stack, a `PathTracing` component on it, and `enable` set. */
  predicate IsEnabled(stack: Option<VolumeStack>) {
    stack.Some? && stack.value.pathTracing.Some? && stack.value.pathTracing.value.enable
  }

  /** Both guards pass: enabled, and an environment texture is set. */
  predicate IsConfigured(stack: Option<VolumeStack>) {
    IsEnabled(stack) && stack.value.pathTracing.value.envTexture.Some?
  }

  class InjectPathTracingPass {
    /** `m_PathTracingPass`. */
    var pathTracingPass: PathTracingPass?

    constructor ()
      ensures pathTracingPass == null
    {
      pathTracingPass := null;
    }

    /** `CreateRenderPass`: only hardware with ray tracing gets a pass. */
    method CreateRenderPass(supportsRayTracing: bool, resourcesFound: bool)
      modifies this
      ensures supportsRayTracing ==>
        pathTracingPass != null && fresh(pathTracingPass)
        && pathTracingPass.hasRayTracingResources == resourcesFound
        && pathTracingPass.rtasCalls == []
      ensures !supportsRayTracing ==> pathTracingPass == old(pathTracingPass)
    {
      if !supportsRayTracing {
        return;
      }
      pathTracingPass := new PathTracingPass(resourcesFound);
    }

    /** `InjectPass`, as written: the pass is created, when missing, before the
        camera test, and the field is enqueued even when creation left it null. */
    method InjectPass(stack: Option<VolumeStack>, cameraType: CameraTypeMask,
                      supportsRayTracing: bool, resourcesFound: bool)
      returns (outcome: InjectOutcome)
      modifies this
      ensures !IsEnabled(stack) ==> outcome == Disabled && pathTracingPass == old(pathTracingPass)
      ensures IsEnabled(stack) && !IsConfigured(stack) ==>
        outcome == MissingEnvironmentTexture && pathTracingPass == old(pathTracingPass)
      ensures IsConfigured(stack) ==>
        && (old(pathTracingPass) != null ==> pathTracingPass == old(pathTracingPass))
        && (old(pathTracingPass) == null && supportsRayTracing ==> pathTracingPass != null && fresh(pathTracingPass))
        && (old(pathTracingPass) == null && !supportsRayTracing ==> pathTracingPass == null)
        && var active := stack.value.pathTracing.value.activeCamera;
           outcome == if CameraSelected(cameraType, active) then Enqueued(pathTracingPass) else CameraNotSelected
    {
      if stack.None? || stack.value.pathTracing.None? || !stack.value.pathTracing.value.enable {
        return Disabled;
      }
      var settings := stack.value.pathTracing.value;
      if settings.envTexture.None? {
        return MissingEnvironmentTexture;
      }
      if pathTracingPass == null {
        CreateRenderPass(supportsRayTracing, resourcesFound);
      }
      if CameraSelected(cameraType, settings.activeCamera) {
        outcome := Enqueued(pathTracingPass);
      } else {
        outcome := CameraNotSelected;
      }
    }

    /** `InjectPass` with the evident intent: a camera is only handed a pass that
        exists. */
    method InjectPassChecked(stack: Option<VolumeStack>, cameraType: CameraTypeMask,
                             supportsRayTracing: bool, resourcesFound: bool)
      returns (outcome: InjectOutcome)
      modifies this
      ensures outcome.Enqueued? ==> outcome.pass != null && outcome.pass == pathTracingPass
      ensures IsConfigured(stack) && old(pathTracingPass) == null && supportsRayTracing ==>
        pathTracingPass != null && fresh(pathTracingPass)
      ensures outcome == NoPass <==>
        IsConfigured(stack) && pathTracingPass == null
        && CameraSelected(cameraType, stack.value.pathTracing.value.activeCamera)
      ensures outcome.Enqueued? <==>
        IsConfigured(stack) && pathTracingPass != null
        && CameraSelected(cameraType, stack.value.pathTracing.value.activeCamera)
      ensures !IsConfigured(stack) ==> pathTracingPass == old(pathTracingPass)
      ensures old(pathTracingPass) != null ==> pathTracingPass == old(pathTracingPass)
      ensures old(pathTracingPass) == null && !supportsRayTracing ==> pathTracingPass == null
    {
      outcome := InjectPass(stack, cameraType, supportsRayTracing, resourcesFound);
      if outcome == Enqueued(null) {
        outcome := NoPass;
      }
    }
  }

  /** On hardware without ray tracing, an enabled, fully configured volume makes
      `InjectPass` enqueue a null pass for every selected camera. */
  method NullPassEnqueuedWithoutRayTracing() returns (outcome: InjectOutcome)
    ensures outcome == Enqueued(null)
  {
    var injector := new InjectPathTracingPass();
    var settings := Defaults.(enable := true, envTexture := Some(TextureRef(0)));
    outcome := injector.InjectPass(Some(VolumeStack(Some(settings))), Game, false, true);
  }

  /** The checked variant never enqueues on such hardware. */
  method NoPassWithoutRayTracing(stack: Option<VolumeStack>, cameraType: CameraTypeMask) returns (outcome: InjectOutcome)
    ensures !outcome.Enqueued?
    ensures outcome == NoPass <==> IsConfigured(stack) && CameraSelected(cameraType, stack.value.pathTracing.value.activeCamera)
  {
    var injector := new InjectPathTracingPass();
    outcome := injector.InjectPassChecked(stack, cameraType, false, true);
  }

  /** Repeated calls on supported hardware create the pass once and reuse it. */
  method PassCreatedOnce(stack: Option<VolumeStack>, first: CameraTypeMask, second: CameraTypeMask)
    returns (p1: PathTracingPass?, p2: PathTracingPass?)
    requires IsConfigured(stack)
    ensures p1 != null && p1 == p2
  {
    var injector := new InjectPathTracingPass();
    var _ := injector.InjectPass(stack, first, true, true);
    p1 := injector.pathTracingPass;
    var _ := injector.InjectPass(stack, second, true, true);
    p2 := injector.pathTracingPass;
  }
}
