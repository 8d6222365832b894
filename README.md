# Progressive accumulation in CustomRayTracing

CustomRayTracing is a Unity path tracer that ships in two variants:

- a custom scriptable render pipeline, made of `RayTracingRenderPipelineAsset`, `RayTracingRenderPipelineInstance` and the per-camera `AdditionalCameraData` component;
- a URP render feature, made of the `PathTracing` volume component, `InjectPathTracingPass` and `PathTracingPass` with its per-camera history item `PathTracingPersistenData`.

Both variants average successive path-traced frames into an accumulation texture. They decide when to keep accumulating and when to restart from a counter, the convergence step. The step grows by one per frame of a still camera. It goes back to 0 when the camera moves or when its output is resized or reallocated; in the URP variant it also goes back to 0 when accumulation is off. The URP variant also stops dispatching rays once the step reaches `maximumSamples`.

The model keeps this bookkeeping and leaves the GPU work out:

- textures are descriptors;
- matrices are compared for equality only;
- command buffers and render-graph passes are recorded as lists of operations.

Files:

- `common.dfy` (`RenderCommon`): C#'s `int` with its wrap-around, matrices, the camera-type mask test with its signed `> 0` comparison, and the instance-culling policy both variants use.
- `path_tracing_volume.dfy` (`PathTracingVolume`): the `PathTracing` volume component, whose `MinIntParameter` fields clamp their values.
- `path_tracing_pass.dfy` (`PathTracingPasses`):
  - the history item as a class, proved against `UpdateState`;
  - the frame plan of `RecordRenderGraph`;
  - the pass class, with its acceleration-structure calls.
- `inject_path_tracing_pass.dfy` (`InjectPathTracing`): the per-camera injection hook, as written and corrected (see Findings).
- `additional_camera_data.dfy` (`AdditionalCamera`): the component as a class, proved against `UpdateResourcesState`.
- `pipeline_asset.dfy` (`RayTracingAsset`): the asset settings and the `uint`/`int` casts of the dispatch.
- `pipeline_instance.dfy` (`RayTracingPipeline`): the pipeline's frame loop over a list of cameras with one shared counter. It is proved against the function `RenderCameras`.
- `renderer2d_data_authoring.dfy` (`Renderer2DAuthoring`): the editor part of URP's `Renderer2DData`:
  - default materials;
  - the in-place upgrade and the rebuild of the light blend styles;
  - the suggested texture names for the Sprite Editor.

## Model

| member | source | states |
|---|---|---|
| RenderCommon.Inc32 | Assets/Scripts/Pipeline/RayTracingRenderPipelineInstance.cs:240 | `++` on a C# `int` adds one below `int.MaxValue` and wraps to `int.MinValue` at it |
| RenderCommon.CameraSelectedIffShared | Assets/Scripts/Pipeline/RayTracingRenderPipelineInstance.cs:140 | for camera types without the sign bit, `(cameraType & mask) > 0` holds exactly when the two share a flag |
| RenderCommon.EmptyMaskSelectsNothing | Assets/Scripts/Pipeline/RayTracingRenderPipelineAsset.cs:28-29 | an empty camera mask selects no camera |
| RenderCommon.RayTracingCullingConfig | Assets/Scripts/Pipeline/RayTracingRenderPipelineInstance.cs:73-103 | one culling test; it admits exactly the opaque and alpha-tested materials that do not only cast shadows; transparent materials get no sub-mesh flags |
| PathTracingVolume.ClampToMin | TestRenderGraph/Assets/Scripts/PathTracing/PathTracing.cs:16-18 | a `MinIntParameter` stores its value when at least the minimum and the minimum otherwise |
| PathTracingVolume.PathTracing.WithMaximumSamples | TestRenderGraph/Assets/Scripts/PathTracing/PathTracing.cs:18 | assigning the sample budget keeps it at least 1 and changes no other setting |
| PathTracingVolume.PathTracing.WithBounceCount | TestRenderGraph/Assets/Scripts/PathTracing/PathTracing.cs:16 | assigning the bounce count keeps it at least 0 and changes no other setting |
| PathTracingVolume.DefaultsAreWellFormedAndInactive | TestRenderGraph/Assets/Scripts/PathTracing/PathTracing.cs:10-28 | a new component is disabled (`IsActive` false), accumulates, has 8 bounces and 2048 samples, no environment texture, and its mask is exactly `Game`, so it selects game cameras and none of the scene-view, preview, VR or reflection cameras |
| PathTracingPasses.AccumulationDescriptor | TestRenderGraph/Assets/Scripts/PathTracing/PathTracingPass.cs:78-92 | the accumulation texture is single-sampled, mip-less, 4 x 32-bit float, linear, depth-less and kernel-writable, with the camera target's size, slices, dimension and memoryless mode |
| PathTracingPasses.AccumulationDescriptorDependsOnShapeOnly | TestRenderGraph/Assets/Scripts/PathTracing/PathTracingPass.cs:78-94 | over the descriptor fields the model carries, two camera targets give the same descriptor, and so the same key, exactly when they agree on size, slices, dimension and memoryless mode (see Left out for the fields it does not carry) |
| PathTracingPasses.AccumulationDescriptorIdempotent | TestRenderGraph/Assets/Scripts/PathTracing/PathTracingPass.cs:76-92 | normalising twice is normalising once; a target with a positive size yields an allocatable descriptor |
| PathTracingPasses.ResetState | TestRenderGraph/Assets/Scripts/PathTracing/PathTracingPass.cs:36-45 | `Reset` frees the texture, zeroes size and format, stores the zero hash, and restarts at step 0 with the identity matrix |
| PathTracingPasses.AllocState | TestRenderGraph/Assets/Scripts/PathTracing/PathTracingPass.cs:62-68 | `Alloc` holds a texture for the descriptor and stores the descriptor and its key; the step and the matrix are kept |
| PathTracingPasses.UpdateCounterAndMatrix | TestRenderGraph/Assets/Scripts/PathTracing/PathTracingPass.cs:70-106 | without a reset the step grows by one on an unchanged matrix with accumulation on, goes to 0 otherwise, and the matrix is remembered; a reset leaves step 0 and the identity matrix |
| PathTracingPasses.UpdateIgnoresUnallocatableTarget | TestRenderGraph/Assets/Scripts/PathTracing/PathTracingPass.cs:76-105 | a target without size or format allocates nothing and keeps texture, descriptor and key |
| PathTracingPasses.UpdateAllocatesExactlyOnKeyChange | TestRenderGraph/Assets/Scripts/PathTracing/PathTracingPass.cs:94-105 | `Update` reports an allocation if and only if the target is allocatable and its key changed; it then holds the new descriptor; otherwise it keeps the texture; the key/texture invariant is preserved |
| PathTracingPasses.SecondUpdateDoesNotReallocate | TestRenderGraph/Assets/Scripts/PathTracing/PathTracingPass.cs:57-60 | a repeated `Update` with the same target never reallocates |
| PathTracingPasses.StaticCameraCountsFrames | TestRenderGraph/Assets/Scripts/PathTracing/PathTracingPass.cs:73-74 | on a still camera with a matching texture, `n` frames add exactly `n` to the step and keep the texture |
| PathTracingPasses.NewItemFirstFrames | TestRenderGraph/Assets/Scripts/PathTracing/PathTracingPass.cs:28-34 | a new item allocates on its first frame and reads step 0 on its first two frames (its identity matrix differs from the camera's); counting starts on the third |
| PathTracingPasses.ResizeReallocatesAndRestarts | TestRenderGraph/Assets/Scripts/PathTracing/PathTracingPass.cs:94-101 | resizing the target reallocates and restarts at step 0, even for a still camera |
| PathTracingPasses.MotionRestartsCounter | TestRenderGraph/Assets/Scripts/PathTracing/PathTracingPass.cs:73-74 | a moved camera restarts at step 0 |
| PathTracingPasses.PathTracingPersistenData.OnCreate | TestRenderGraph/Assets/Scripts/PathTracing/PathTracingPass.cs:28-34 | `OnCreate` starts at step 0 with the identity matrix, no texture and the default key |
| PathTracingPasses.PathTracingPersistenData.Reset | TestRenderGraph/Assets/Scripts/PathTracing/PathTracingPass.cs:36-45 | the new state is `ResetState` of the old |
| PathTracingPasses.PathTracingPersistenData.Alloc | TestRenderGraph/Assets/Scripts/PathTracing/PathTracingPass.cs:62-68 | the new state is `AllocState` of the old |
| PathTracingPasses.PathTracingPersistenData.Update | TestRenderGraph/Assets/Scripts/PathTracing/PathTracingPass.cs:70-106 | the new state and the returned flag are `UpdateState` of the old state; the key/texture invariant is kept |
| PathTracingPasses.PlanFrame | TestRenderGraph/Assets/Scripts/PathTracing/PathTracingPass.cs:245-250 | rays are generated exactly while the step is below `maximumSamples`; the kernel gets the step when accumulating and 0 otherwise; the blit ratio is that value over the budget |
| PathTracingPasses.PlanRatioInUnitInterval | TestRenderGraph/Assets/Scripts/PathTracing/PathTracingPass.cs:291 | for a non-negative step the blit ratio lies in [0, 1), and it is 0 when rays are skipped or accumulation is off |
| PathTracingPasses.FramePassesShape | TestRenderGraph/Assets/Scripts/PathTracing/PathTracingPass.cs:240-291 | nothing is recorded without a texture; otherwise there is exactly one final blit, preceded by ray generation exactly when the step is below the budget; the kernel's step is the counter or 0 |
| PathTracingPasses.TracingStopsAtSampleBudget | TestRenderGraph/Assets/Scripts/PathTracing/PathTracingPass.cs:245-291 | a still camera on a prepared item traces for exactly `maximumSamples` frames from step 0; after that only the blit is recorded |
| PathTracingPasses.PathTracingPass.constructor | TestRenderGraph/Assets/Scripts/PathTracing/PathTracingPass.cs:141-192 | a new pass has an acceleration structure, the one culling configuration, no component yet and no structure calls |
| PathTracingPasses.PathTracingPass.UpdateRTAS | TestRenderGraph/Assets/Scripts/PathTracing/PathTracingPass.cs:194-199 | the structure is cleared, culled with the pass's configuration and built, in that order |
| PathTracingPasses.PathTracingPass.RecordRenderGraph | TestRenderGraph/Assets/Scripts/PathTracing/PathTracingPass.cs:211-308 | an invalid pass records nothing; a valid one updates the structure; without a history item nothing more happens; with one, the item advances by `UpdateState` and the passes are `FramePasses` of its new state |
| InjectPathTracing.InjectPathTracingPass.CreateRenderPass | TestRenderGraph/Assets/Scripts/PathTracing/InjectPathTracingPass.cs:23-32 | only hardware with ray tracing gets a new pass |
| InjectPathTracing.InjectPathTracingPass.InjectPass | TestRenderGraph/Assets/Scripts/PathTracing/InjectPathTracingPass.cs:34-59 | disabled, or missing an environment texture: nothing is enqueued and the pass is kept; otherwise the pass is created once when missing and enqueued for a selected camera, even when it is still null |
| InjectPathTracing.InjectPathTracingPass.InjectPassChecked | TestRenderGraph/Assets/Scripts/PathTracing/InjectPathTracingPass.cs:34-59 | a configured call on ray-tracing hardware creates the missing pass; a pass is enqueued if and only if the volume is configured, the pass exists and the camera is selected, and it is never null; a selected camera without a pass gets `NoPass` |
| InjectPathTracing.NullPassEnqueuedWithoutRayTracing | TestRenderGraph/Assets/Scripts/PathTracing/InjectPathTracingPass.cs:49-58 | without ray tracing support, an enabled and configured volume enqueues a null pass for a game camera |
| InjectPathTracing.NoPassWithoutRayTracing | TestRenderGraph/Assets/Scripts/PathTracing/InjectPathTracingPass.cs:23-32 | the checked hook never enqueues on hardware without ray tracing, and reports `NoPass` exactly for a configured volume and a selected camera |
| InjectPathTracing.PassCreatedOnce | TestRenderGraph/Assets/Scripts/PathTracing/InjectPathTracingPass.cs:49-52 | on supported hardware the pass is created on the first call and reused on the next |
| AdditionalCamera.OutputTexture | Assets/Scripts/AdditionalCameraData.cs:40-53 | the output texture has the camera's pixel size, 4 x 32-bit float format and random write |
| AdditionalCamera.ReallocatesOnSizeMismatch | Assets/Scripts/AdditionalCameraData.cs:36-56 | a missing or mis-sized output is released and replaced by one of the camera's size; the call reports a change; the remembered matrix is untouched |
| AdditionalCamera.ReportsMatrixChange | Assets/Scripts/AdditionalCameraData.cs:58-64 | with a fitting output, a change is reported if and only if the matrix differs from the remembered one, which the call then stores |
| AdditionalCamera.MatrixReportFollowsReallocation | Assets/Scripts/AdditionalCameraData.cs:36-64 | a reallocating call does not look at the matrix, so a moved camera reports again on the next call |
| AdditionalCamera.SettlesWithinTwoCalls | Assets/Scripts/AdditionalCameraData.cs:32-65 | from any state, with a fixed size and matrix, the third call reports nothing and changes nothing |
| AdditionalCamera.NewComponentFirstCalls | Assets/Scripts/AdditionalCameraData.cs:11-18 | a new component allocates on its first call; its zero matrix makes the second call report any non-zero matrix |
| AdditionalCamera.AdditionalCameraData.constructor | Assets/Scripts/AdditionalCameraData.cs:11-18 | the field initialisers: frame 0, no output, the zero matrix |
| AdditionalCamera.AdditionalCameraData.Attach | Assets/Scripts/Pipeline/RayTracingRenderPipelineInstance.cs:130-134 | adding the component attaches it with its field initialisers |
| AdditionalCamera.AdditionalCameraData.Start | Assets/Scripts/AdditionalCameraData.cs:20-25 | the frame index becomes 0 and nothing else changes |
| AdditionalCamera.AdditionalCameraData.UpdateCameraData | Assets/Scripts/AdditionalCameraData.cs:27-30 | the frame index grows by one, wrapping at `int.MaxValue`, and nothing else changes |
| AdditionalCamera.AdditionalCameraData.UpdateCameraResources | Assets/Scripts/AdditionalCameraData.cs:32-65 | the new state and the returned flag are `UpdateResourcesState` of the old state and the camera's size and matrix |
| AdditionalCamera.AdditionalCameraData.OnDestroy | Assets/Scripts/AdditionalCameraData.cs:67-74 | the output, if any, is released and the slot emptied |
| RayTracingAsset.UIntToInt32 | Assets/Scripts/Pipeline/RayTracingRenderPipelineInstance.cs:226-227 | `(int)` on a `uint` keeps values up to `int.MaxValue` and wraps larger ones to negative values |
| RayTracingAsset.Int32ToUInt | Assets/Scripts/Pipeline/RayTracingRenderPipelineInstance.cs:238 | `(uint)` on an `int` keeps non-negative values and wraps negative ones above `int.MaxValue` |
| RayTracingAsset.DefaultAssetSelectsNoCamera | Assets/Scripts/Pipeline/RayTracingRenderPipelineAsset.cs:17-34 | a new asset is within the inspector ranges and has no shader; its mask has no initialiser, so it selects no camera |
| RayTracingAsset.InRangeBounceCountsReachShader | Assets/Scripts/Pipeline/RayTracingRenderPipelineAsset.cs:23-33 | bounce counts within the `[Range(1, 100)]` sliders reach the shader unchanged and positive |
| RayTracingPipeline.TraceCamera | Assets/Scripts/Pipeline/RayTracingRenderPipelineInstance.cs:187-245 | with a shader: a build and one dispatch carrying the counter, the frame index and the environment texture, and the counter grows by one; without one: nothing recorded, counter kept |
| RayTracingPipeline.UntracedCameraClearsBlack | Assets/Scripts/Pipeline/RayTracingRenderPipelineInstance.cs:136-172 | an unselected or untraced camera is cleared to black, and a resource change still restarts the counter |
| RayTracingPipeline.TracedCameraDispatches | Assets/Scripts/Pipeline/RayTracingRenderPipelineInstance.cs:136-165 | a traced camera builds, dispatches with the counter as it stands after the resource check, and blits its output |
| RayTracingPipeline.RenderCameras | Assets/Scripts/Pipeline/RayTracingRenderPipelineInstance.cs:128-184 | the camera loop yields one component state per camera |
| RayTracingPipeline.EveryCameraAdvances | Assets/Scripts/Pipeline/RayTracingRenderPipelineInstance.cs:136-183 | after the loop every camera, selected or not, has an output of its size and a frame index one higher; a camera that needed no new output remembers its matrix |
| RayTracingPipeline.SharedCounterAcrossCameras | Assets/Scripts/Pipeline/RayTracingRenderPipelineInstance.cs:17 | two settled, traced cameras in one frame get consecutive counter values; the frame advances the counter by two |
| RayTracingPipeline.StaticCameraAccumulates | Assets/Scripts/Pipeline/RayTracingRenderPipelineInstance.cs:136-240 | a settled, traced camera that keeps still for `n` frames advances the counter by exactly `n` and records three operations a frame |
| RayTracingPipeline.NewCameraRestartsCounter | Assets/Scripts/Pipeline/RayTracingRenderPipelineInstance.cs:130-136 | a camera seen for the first time dispatches with step 0 and leaves the counter at 1; its second frame dispatches with step 0 again unless its matrix is the zero matrix (then with step 1), after which the camera is settled |
| RayTracingPipeline.RenderCamerasSnoc | Assets/Scripts/Pipeline/RayTracingRenderPipelineInstance.cs:128-184 | one more camera extends the loop's outcome of the cameras before it |
| RayTracingPipeline.RayTracingRenderPipelineInstance.constructor | Assets/Scripts/Pipeline/RayTracingRenderPipelineInstance.cs:24-40 | a new instance holds its asset and an acceleration structure, with counter 0 |
| RayTracingPipeline.RayTracingRenderPipelineInstance.Dispose | Assets/Scripts/Pipeline/RayTracingRenderPipelineInstance.cs:42-54 | the acceleration structure is gone afterwards |
| RayTracingPipeline.RayTracingRenderPipelineInstance.CullInstance | Assets/Scripts/Pipeline/RayTracingRenderPipelineInstance.cs:73-103 | the instance list is cleared and then culled with the ray-tracing culling configuration |
| RayTracingPipeline.RayTracingRenderPipelineInstance.DoPathTracing | Assets/Scripts/Pipeline/RayTracingRenderPipelineInstance.cs:187-245 | the result, the operations and the new counter are `TraceCamera` of the old counter |
| RayTracingPipeline.RayTracingRenderPipelineInstance.RenderCameraStep | Assets/Scripts/Pipeline/RayTracingRenderPipelineInstance.cs:128-184 | after one loop turn the component is attached, and its state, the counter and the operations are `RenderCamera` of the old ones |
| RayTracingPipeline.RayTracingRenderPipelineInstance.Render | Assets/Scripts/Pipeline/RayTracingRenderPipelineInstance.cs:114-185 | invalid: one magenta clear, with counter and components untouched; valid: the cull, then `RenderCameras` of the cameras' views and component states, whose counter and states become the new ones |
| RayTracingPipeline.RayTracingRenderPipelineInstance.RenderEachCamera | Assets/Scripts/Pipeline/RayTracingRenderPipelineInstance.cs:128-184 | the loop's operations, counter and component states are `RenderCameras` of the state on entry |
| RayTracingPipeline.CreatePipeline | Assets/Scripts/Pipeline/RayTracingRenderPipelineAsset.cs:36 | the asset creates a fresh instance bound to itself, with counter 0 |
| Renderer2DAuthoring.GetDefaultMaterial | TestRenderGraph/Packages/com.unity.render-pipelines.universal/Runtime/2D/Renderer2DDataAuthoring.cs:16-38 | no resources: null; sprites and particles get the material of the renderer's default type; sprite masks get the mask material; every other kind gets null |
| Renderer2DAuthoring.DefaultMaterialChoice | TestRenderGraph/Packages/com.unity.render-pipelines.universal/Runtime/2D/Renderer2DDataAuthoring.cs:21-37 | sprites and particles always share a material; the mask material does not depend on the default type; a material is returned only with resources and for those three kinds |
| Renderer2DAuthoring.MigrateBlendStyles | TestRenderGraph/Packages/com.unity.render-pipelines.universal/Runtime/2D/Renderer2DDataAuthoring.cs:74-81 | the upgrade keeps the length and treats each entry on its own |
| Renderer2DAuthoring.MigrationProperties | TestRenderGraph/Packages/com.unity.render-pipelines.universal/Runtime/2D/Renderer2DDataAuthoring.cs:74-81 | names and mask channels are kept; retired custom modes (99) become Multiply; other entries are unchanged; upgrading again changes nothing |
| Renderer2DAuthoring.SuggestedNamesOfEmpty | TestRenderGraph/Packages/com.unity.render-pipelines.universal/Runtime/2D/Renderer2DDataAuthoring.cs:48-49 | an empty preference becomes exactly "_MaskTex,_NormalMap" |
| Renderer2DAuthoring.SuggestedNamesExtends | TestRenderGraph/Packages/com.unity.render-pipelines.universal/Runtime/2D/Renderer2DDataAuthoring.cs:50-59 | the result names both properties; a non-empty preference is kept as a prefix; one that already names both is left as it was |
| Renderer2DAuthoring.SuggestedNamesIdempotent | TestRenderGraph/Packages/com.unity.render-pipelines.universal/Runtime/2D/Renderer2DDataAuthoring.cs:46-59 | merging a second time changes nothing |
| Renderer2DAuthoring.Renderer2DData.constructor | TestRenderGraph/Packages/com.unity.render-pipelines.universal/Runtime/2D/Renderer2DDataAuthoring.cs:9 | the default material type starts as Lit |
| Renderer2DAuthoring.Renderer2DData.InitializeSpriteEditorPrefs | TestRenderGraph/Packages/com.unity.render-pipelines.universal/Runtime/2D/Renderer2DDataAuthoring.cs:40-62 | the stored preference becomes `SuggestedNames` of the one read |
| Renderer2DAuthoring.Renderer2DData.RebuildBlendStyles | TestRenderGraph/Packages/com.unity.render-pipelines.universal/Runtime/2D/Renderer2DDataAuthoring.cs:69-104 | unforced on an existing array: the same array, its contents upgraded, the preference untouched; otherwise a fresh array of exactly the four default styles, with the preference merged, and an old array is left as it was |
| Renderer2DAuthoring.Renderer2DData.Awake | TestRenderGraph/Packages/com.unity.render-pipelines.universal/Runtime/2D/Renderer2DDataAuthoring.cs:106-109 | an existing array is upgraded in place and the preference is untouched; a missing one is replaced by the four defaults and the preference is merged |
| Renderer2DAuthoring.Renderer2DData.Reset | TestRenderGraph/Packages/com.unity.render-pipelines.universal/Runtime/2D/Renderer2DDataAuthoring.cs:111-114 | always a fresh array of the four defaults, with the preference merged; an old array is left as it was |

## Left out

- GPU work: shader dispatches, blits, render-graph passes, command buffers and their submission. Each is recorded as a list entry standing for the call.
- Textures: a texture is its descriptor or size. The `RTHandle` system, the render graph and their lifetimes are left out, as is the `rtHandleSystem.Alloc`/`Release` pair around each camera.
- Matrices: `Matrix4x4` is a sequence of reals compared exactly. Floating-point rounding is not modelled.
- AdditionalCamera.UpdateResourcesState: the matrix test at AdditionalCameraData.cs:58 is Unity's `Matrix4x4 !=`, which treats matrices whose columns are within a squared distance of 1e-10 as equal; the model abstracts it as exact inequality, so it reports sub-tolerance jitter that the program ignores. The URP history item's `Equals` (PathTracingPass.cs:73) is exact, as modelled. The projection matrices, zoom and aspect passed to the kernels are left out.
- Blit ratio: the `(float)step / maximumSamples` ratio is computed on reals.
- PathTracingPasses.AccumulationDescriptor: `var accDesc = cameraDesc` copies every descriptor field into the hashed descriptor, including `vrUsage`, `stencilFormat`, `shadowSamplingMode` and the creation flags the model does not carry. The model's descriptor has 15 fields, so it does not show the reallocation a change of those other fields causes.
- `Hash128`: it is taken to be collision-free, so a descriptor's key is the descriptor. `Hash128.Compute(0)` and the default hash are two distinct keys, neither equal to a descriptor's.
- ReSTIR: the `restir`, `clearRestirBuffer` and `debugMode` settings are carried and never acted on, as in the code.
- `FindPointLight`: not modelled, because nothing in the frame loop calls it.
- Exceptions and logging: `Debug.Log`/`Debug.LogWarning` are left out.
- Volume stack: it is passed in as the component it yields. Graphics-settings lookups are passed in as booleans or options, and `SystemInfo.supportsRayTracing` as a parameter.
- Lifecycle: `InjectPathTracingPass`'s `OnEnable`/`OnDisable` subscriptions are left out, and so are the component's `hideFlags`. The URP pass has no `Dispose`, so its acceleration structure is never released; the model has nothing to release either.
- `RayTracingPipeline.RayTracingRenderPipelineInstance.Render`: `AddComponent` is modelled as attaching a component object each camera already owns (`Camera.additionalData`), so allocation of the component is not modelled. The cameras must own distinct components.
- `AdditionalCamera.AdditionalCameraData.UpdateCameraResources`: receives its camera's pixel size and matrix as parameters, in place of the cached `_camera`.
- Renderer2DDataAuthoring `EditorPrefs`: the preference is a field of the model. A missing entry reads as "".
- `ReloadAllNullProperties`: it reflects over the object's null fields, so it is left out.
- `GetDefaultShader`: a lookup by a constant name, left out.
- `Light2DBlendStyle` fields other than name, blend mode and mask channel are left out. Light2DBlendStyle.cs is not part of this model; the values Additive = 0, Multiply = 1, mask channel None = 0 and R = 1 follow URP's enums, and only their distinctness matters here.
- Convergence step: the code places no cap on the step. The only limit is URP's `maximumSamples` test on ray generation, and the step wraps only at `int.MaxValue` (modelled by `Inc32`).

## Findings

| source | as written | input that shows it | evidently intended | confidence | as-written member | corrected member |
|---|---|---|---|---|---|---|
| TestRenderGraph/Assets/Scripts/PathTracing/InjectPathTracingPass.cs:49-58 | when the pass is missing, `CreateRenderPass` is called, and it leaves the pass null on hardware without ray tracing; `EnqueuePass(m_PathTracingPass)` still runs for every selected camera | `SystemInfo.supportsRayTracing` false, an enabled `PathTracing` with an environment texture, and a game camera | enqueue only when a pass exists | not executed | InjectPathTracing.InjectPathTracingPass.InjectPass (witness InjectPathTracing.NullPassEnqueuedWithoutRayTracing) | InjectPathTracing.InjectPathTracingPass.InjectPassChecked |
